/**
 * The bounded message queue built from three semaphores, as a system of steps: any number of
 * tasks send and receive, and any awake task may take the next step of its call.
 */
module MessageQueues {
  import opened Sequences
  import S = Semaphores

  type Tid = nat

  /** Where a task stands: the step of mqueue_send or mqueue_recv it takes next. */
  datatype Pc =
    | Idle
    | SendVaga | SendBuffer | SendPut | SendUnlock | SendItem
    | RecvItem | RecvBuffer | RecvTake | RecvUnlock | RecvVaga

  datatype State<M> = State(
    capacity: int,
    active: bool,
    vaga: S.Semaphore<Tid>,
    lock: S.Semaphore<Tid>,
    item: S.Semaphore<Tid>,
    msgs: seq<M>,
    pcs: seq<Pc>,
    arg: seq<M>,        // what a sender sends, what a receiver has received
    ret: seq<int>,      // what a task's last finished call returned
    fault: bool,        // a receiver followed the null buffer pointer
    sent: seq<M>,       // every message appended so far
    taken: seq<M>)      // every message removed so far

  datatype Step<M> = CallSend(t: Tid, m: M) | CallRecv(t: Tid) | Go(t: Tid) | DestroyQueue

  /** mqueue_init, with one idle task for each element of arg. */
  function Init<M>(capacity: int, arg: seq<M>): State<M> {
    State(capacity, true, S.Init(capacity), S.Init(1), S.Init(0), [],
          seq(|arg|, _ => Idle), arg, seq(|arg|, _ => 0), false, [], [])
  }

  predicate Awake<M>(s: State<M>, t: Tid) {
    t !in s.vaga.queue && t !in s.lock.queue && t !in s.item.queue
  }

  ghost predicate Shape<M>(s: State<M>) {
    |s.arg| == |s.pcs| && |s.ret| == |s.pcs|
  }

  ghost predicate Legal<M>(s: State<M>, a: Step<M>) {
    && Shape(s) && !s.fault
    && match a
       case CallSend(t, _) => t < |s.pcs| && s.pcs[t] == Idle
       case CallRecv(t) => t < |s.pcs| && s.pcs[t] == Idle
       case Go(t) => t < |s.pcs| && s.pcs[t] != Idle && Awake(s, t)
       case DestroyQueue => true
  }

  function At<M>(s: State<M>, t: Tid, pc: Pc): State<M>
    requires t < |s.pcs|
  {
    s.(pcs := s.pcs[t := pc])
  }

  function Return<M>(s: State<M>, t: Tid, code: int): State<M>
    requires t < |s.pcs| && t < |s.ret|
  {
    s.(pcs := s.pcs[t := Idle], ret := s.ret[t := code])
  }

  /** The checked part between locking and unlocking. */
  function Put<M>(s: State<M>, t: Tid): State<M>
    requires Shape(s) && t < |s.pcs|
  {
    if !s.active then Return(s, t, -1)
    else At(s.(msgs := s.msgs + [s.arg[t]], sent := s.sent + [s.arg[t]]), t, SendUnlock)
  }

  function Take<M>(s: State<M>, t: Tid): State<M>
    requires Shape(s) && t < |s.pcs|
  {
    if !s.active then Return(s, t, -1)
    else if s.msgs == [] then s.(fault := true)
    else At(s.(msgs := s.msgs[1..], taken := s.taken + [s.msgs[0]], arg := s.arg[t := s.msgs[0]]), t, RecvUnlock)
  }

  function Advance<M>(s: State<M>, t: Tid): State<M>
    requires Shape(s) && t < |s.pcs|
  {
    match s.pcs[t]
    case Idle => s
    case SendVaga => At(s.(vaga := S.Apply(s.vaga, S.Down(t))), t, SendBuffer)
    case SendBuffer => At(s.(lock := S.Apply(s.lock, S.Down(t))), t, SendPut)
    case SendPut => Put(s, t)
    case SendUnlock => At(s.(lock := S.Apply(s.lock, S.Up)), t, SendItem)
    case SendItem => Return(s.(item := S.Apply(s.item, S.Up)), t, 0)
    case RecvItem => At(s.(item := S.Apply(s.item, S.Down(t))), t, RecvBuffer)
    case RecvBuffer => At(s.(lock := S.Apply(s.lock, S.Down(t))), t, RecvTake)
    case RecvTake => Take(s, t)
    case RecvUnlock => At(s.(lock := S.Apply(s.lock, S.Up)), t, RecvVaga)
    case RecvVaga => Return(s.(vaga := S.Apply(s.vaga, S.Up)), t, 0)
  }

  function Destroyed<M>(s: State<M>): State<M> {
    s.(lock := S.Apply(s.lock, S.Destroy), item := S.Apply(s.item, S.Destroy), vaga := S.Apply(s.vaga, S.Destroy),
       msgs := [], active := false)
  }

  function Next<M>(s: State<M>, a: Step<M>): State<M>
    requires Legal(s, a)
  {
    match a
    case CallSend(t, m) => if s.active then At(s.(arg := s.arg[t := m]), t, SendVaga) else Return(s, t, -1)
    case CallRecv(t) => if s.active then At(s, t, RecvItem) else Return(s, t, -1)
    case Go(t) => Advance(s, t)
    case DestroyQueue => Destroyed(s)
  }

  // ---------------------------------------------------------------- counting tasks

  function Count(pcs: seq<Pc>, pc: Pc): nat {
    multiset(pcs)[pc]
  }

  /** The tasks q stand at pc, and nobody stands there twice. */
  ghost predicate AllAt(pcs: seq<Pc>, q: seq<Tid>, pc: Pc) {
    NoDuplicates(q) && forall i :: 0 <= i < |q| ==> q[i] < |pcs| && pcs[q[i]] == pc
  }

  function Other(pc: Pc): Pc {
    if pc == Idle then SendVaga else Idle
  }

  lemma {:induction false} CountAtLeast(pcs: seq<Pc>, q: seq<Tid>, pc: Pc)
    requires AllAt(pcs, q, pc)
    ensures |q| <= Count(pcs, pc)
    decreases |q|
  {
    if q != [] {
      var n := |q| - 1;
      PairwiseDistinct(q);
      PairwiseDistinct(q[..n]);
      CountAtLeast(pcs[q[n] := Other(pc)], q[..n], pc);
    }
  }

  lemma {:induction false} CountExactly(pcs: seq<Pc>, q: seq<Tid>, pc: Pc)
    requires AllAt(pcs, q, pc)
    requires forall t :: 0 <= t < |pcs| && pcs[t] == pc ==> t in q
    ensures |q| == Count(pcs, pc)
    decreases |q|
  {
    if q == [] {
      assert pc !in multiset(pcs);
    } else {
      var n := |q| - 1;
      PairwiseDistinct(q);
      PairwiseDistinct(q[..n]);
      var fewer := pcs[q[n] := Other(pc)];
      assert q == q[..n] + [q[n]];
      CountExactly(fewer, q[..n], pc);
    }
  }

  lemma CountMoves(pcs: seq<Pc>, t: nat, to: Pc)
    requires t < |pcs|
    ensures forall pc :: Count(pcs[t := to], pc) ==
              Count(pcs, pc) - (if pcs[t] == pc then 1 else 0) + (if to == pc then 1 else 0)
    ensures Count(pcs, pcs[t]) >= 1
  {}

  // ---------------------------------------------------------------- the invariant of a live queue

  ghost predicate Counting(sem: S.Semaphore<Tid>) {
    sem.active && NoDuplicates(sem.queue) && |sem.queue| == S.Debt(sem.value)
  }

  /** Free slots, counted in tokens: in the semaphore, or with a task between taking one and filling or freeing a place. */
  ghost predicate SlotTokens<M>(s: State<M>) {
    s.vaga.value == s.capacity - |s.msgs| - Count(s.pcs, SendBuffer) - Count(s.pcs, SendPut)
                    - Count(s.pcs, RecvUnlock) - Count(s.pcs, RecvVaga)
  }

  /** Messages on offer, likewise. */
  ghost predicate ItemTokens<M>(s: State<M>) {
    s.item.value == |s.msgs| - Count(s.pcs, SendUnlock) - Count(s.pcs, SendItem)
                    - Count(s.pcs, RecvBuffer) - Count(s.pcs, RecvTake)
  }

  predicate Inside(pc: Pc) {
    pc == SendPut || pc == SendUnlock || pc == RecvTake || pc == RecvUnlock
  }

  /** Task t is inside the section guarded by s_buffer. */
  predicate Holds<M>(s: State<M>, t: Tid) {
    t < |s.pcs| && Inside(s.pcs[t]) && t !in s.lock.queue
  }

  ghost predicate Mutex<M>(s: State<M>) {
    && s.lock.value <= 1
    && (forall t, u :: Holds(s, t) && Holds(s, u) ==> t == u)
    && (s.lock.value == 1 <==> forall t :: !Holds(s, t))
  }

  /** Who sleeps where. */
  ghost predicate Sleepers<M>(s: State<M>) {
    && AllAt(s.pcs, s.vaga.queue, SendBuffer)
    && AllAt(s.pcs, s.item.queue, RecvBuffer)
    && (forall t :: t in s.lock.queue ==> t < |s.pcs| && (s.pcs[t] == SendPut || s.pcs[t] == RecvTake))
  }

  ghost predicate AllCounting<M>(s: State<M>) {
    Counting(s.vaga) && Counting(s.lock) && Counting(s.item)
  }

  ghost predicate LiveInv<M>(s: State<M>) {
    && Shape(s) && s.active && !s.fault
    && AllCounting(s)
    && SlotTokens(s) && ItemTokens(s) && Mutex(s) && Sleepers(s)
    && s.sent == s.taken + s.msgs
  }

  /** The buffer never holds more than its capacity, and a receiver at the buffer finds a message there. */
  lemma TokensBoundBuffer<M>(s: State<M>)
    requires LiveInv(s)
    ensures |s.msgs| <= s.capacity
    ensures forall t :: 0 <= t < |s.pcs| && s.pcs[t] == RecvTake ==> s.msgs != []
  {
    CountAtLeast(s.pcs, s.vaga.queue, SendBuffer);
    CountAtLeast(s.pcs, s.item.queue, RecvBuffer);
    forall t | 0 <= t < |s.pcs| && s.pcs[t] == RecvTake
      ensures s.msgs != []
    {
      CountMoves(s.pcs, t, Idle);
    }
  }

  lemma ReceiverFindsMessage<M>(s: State<M>, t: Tid)
    requires LiveInv(s) && t < |s.pcs| && s.pcs[t] == RecvTake
    ensures s.msgs != []
  {
    TokensBoundBuffer(s);
  }

  /** mqueue_init establishes the invariant exactly for a capacity that is not negative. */
  lemma InitIsLive<M>(capacity: int, arg: seq<M>)
    ensures LiveInv(Init(capacity, arg)) <==> capacity >= 0
  {
    var s := Init(capacity, arg);
    forall pc | pc != Idle
      ensures Count(s.pcs, pc) == 0
    {
      assert pc !in s.pcs;
      assert pc !in multiset(s.pcs);
    }
  }

  /** Moving one task leaves the others' queues well placed. */
  lemma AllAtOthers(pcs: seq<Pc>, q: seq<Tid>, pc: Pc, t: Tid, to: Pc)
    requires AllAt(pcs, q, pc) && t < |pcs| && t !in q
    ensures AllAt(pcs[t := to], q, pc)
  {}

  lemma AllAtJoins(pcs: seq<Pc>, q: seq<Tid>, pc: Pc, t: Tid)
    requires AllAt(pcs, q, pc) && t < |pcs| && t !in q
    ensures AllAt(pcs[t := pc], q + [t], pc)
  {
    PairwiseDistinct(q);
    PairwiseDistinct(q + [t]);
  }

  /** The same when an up may let the first sleeper go. */
  lemma AllAtAfterUp(pcs: seq<Pc>, sem: S.Semaphore<Tid>, pc: Pc, t: Tid, to: Pc)
    requires AllAt(pcs, sem.queue, pc) && t < |pcs| && t !in sem.queue
    ensures AllAt(pcs[t := to], S.Apply(sem, S.Up).queue, pc)
  {
    PairwiseDistinct(sem.queue);
    if sem.queue != [] {
      PairwiseDistinct(sem.queue[1..]);
    }
  }

  /** A down or an up keeps a semaphore's queue as long as its debt. */
  lemma DownCounts(sem: S.Semaphore<Tid>, t: Tid)
    requires Counting(sem) && t !in sem.queue
    ensures Counting(S.Apply(sem, S.Down(t)))
  {
    PairwiseDistinct(sem.queue);
    PairwiseDistinct(sem.queue + [t]);
  }

  lemma UpCounts(sem: S.Semaphore<Tid>)
    requires Counting(sem)
    ensures Counting(S.Apply(sem, S.Up))
  {
    PairwiseDistinct(sem.queue);
    if sem.queue != [] {
      PairwiseDistinct(sem.queue[1..]);
    }
  }

  function SlotAt(pc: Pc): nat {
    if pc == SendBuffer || pc == SendPut || pc == RecvUnlock || pc == RecvVaga then 1 else 0
  }

  function ItemAt(pc: Pc): nat {
    if pc == SendUnlock || pc == SendItem || pc == RecvBuffer || pc == RecvTake then 1 else 0
  }

  /** A step passes tokens on: what the semaphores and the buffer lose, the moving task gains. */
  lemma SlotsPass<M>(s: State<M>, r: State<M>, t: Tid, to: Pc)
    requires SlotTokens(s) && t < |s.pcs| && r.pcs == s.pcs[t := to] && r.capacity == s.capacity
    requires r.vaga.value + |r.msgs| + SlotAt(to) == s.vaga.value + |s.msgs| + SlotAt(s.pcs[t])
    ensures SlotTokens(r)
  {
    CountMoves(s.pcs, t, to);
  }

  lemma ItemsPass<M>(s: State<M>, r: State<M>, t: Tid, to: Pc)
    requires ItemTokens(s) && t < |s.pcs| && r.pcs == s.pcs[t := to]
    requires r.item.value - |r.msgs| + ItemAt(to) == s.item.value - |s.msgs| + ItemAt(s.pcs[t])
    ensures ItemTokens(r)
  {
    CountMoves(s.pcs, t, to);
  }

  /** A step that neither enters nor leaves the guarded section nor touches its lock. */
  lemma SameHolders<M>(s: State<M>, r: State<M>, t: Tid, to: Pc)
    requires Mutex(s) && r.lock == s.lock && t < |s.pcs| && r.pcs == s.pcs[t := to]
    requires Inside(to) <==> Inside(s.pcs[t])
    ensures Mutex(r)
  {
    assert forall u :: Holds(r, u) <==> Holds(s, u);
  }

  lemma LockDown<M>(s: State<M>, r: State<M>, t: Tid, to: Pc)
    requires Counting(s.lock) && Mutex(s) && t < |s.pcs| && !Inside(s.pcs[t]) && t !in s.lock.queue
    requires Inside(to) && r.pcs == s.pcs[t := to] && r.lock == S.Apply(s.lock, S.Down(t))
    ensures Mutex(r)
  {
    if s.lock.value == 1 {
      assert Holds(r, t);
      forall u | Holds(r, u)
        ensures u == t
      {
        assert u != t ==> Holds(s, u);
      }
    } else {
      assert r.lock.queue == s.lock.queue + [t];
      assert forall u :: Holds(r, u) <==> Holds(s, u);
    }
  }

  lemma LockUp<M>(s: State<M>, r: State<M>, t: Tid, to: Pc)
    requires Counting(s.lock) && Mutex(s) && Holds(s, t)
    requires forall u :: u in s.lock.queue ==> u < |s.pcs| && Inside(s.pcs[u])
    requires !Inside(to) && r.pcs == s.pcs[t := to] && r.lock == S.Apply(s.lock, S.Up)
    ensures Mutex(r)
  {
    assert s.lock.value <= 0;
    var q := s.lock.queue;
    if q == [] {
      assert forall u :: Holds(r, u) ==> u != t && Holds(s, u);
    } else {
      PairwiseDistinct(q);
      var next := q[0];
      assert next in q && next != t;
      assert next !in q[1..];
      assert r.lock.queue == q[1..] && Holds(r, next);
      forall u | Holds(r, u)
        ensures u == next
      {
        assert q == [next] + q[1..];
        assert u != t && (u != next ==> Holds(s, u));
      }
    }
  }

  /** A step of t that leaves the two outer queues alone. */
  lemma SleepersStay<M>(s: State<M>, r: State<M>, t: Tid, to: Pc)
    requires Sleepers(s) && t < |s.pcs| && r.pcs == s.pcs[t := to]
    requires t !in s.vaga.queue && t !in s.item.queue && r.vaga.queue == s.vaga.queue && r.item.queue == s.item.queue
    requires forall u :: u in r.lock.queue ==>
               if u == t then to == SendPut || to == RecvTake else u in s.lock.queue
    ensures Sleepers(r)
  {
    AllAtOthers(s.pcs, s.vaga.queue, SendBuffer, t, to);
    AllAtOthers(s.pcs, s.item.queue, RecvBuffer, t, to);
  }

  // ---------------------------------------------------------------- every step keeps the invariant

  /** A step of a call on a live queue, taken by a task that can take it and finds a message if it needs one. */
  ghost predicate Proceeds<M>(s: State<M>, t: Tid) {
    && Legal(s, Go(t)) && s.active && AllCounting(s)
    && (s.pcs[t] == RecvTake ==> s.msgs != [])
  }

  lemma StepKeepsCounting<M>(s: State<M>, t: Tid)
    requires Proceeds(s, t)
    ensures AllCounting(Advance(s, t))
  {
    DownCounts(s.vaga, t);
    DownCounts(s.lock, t);
    DownCounts(s.item, t);
    UpCounts(s.vaga);
    UpCounts(s.lock);
    UpCounts(s.item);
  }

  lemma StepKeepsSlots<M>(s: State<M>, t: Tid)
    requires Proceeds(s, t) && SlotTokens(s)
    ensures SlotTokens(Advance(s, t))
  {
    SlotsPass(s, Advance(s, t), t, Advance(s, t).pcs[t]);
  }

  lemma StepKeepsItems<M>(s: State<M>, t: Tid)
    requires Proceeds(s, t) && ItemTokens(s)
    ensures ItemTokens(Advance(s, t))
  {
    ItemsPass(s, Advance(s, t), t, Advance(s, t).pcs[t]);
  }

  lemma StepKeepsMutex<M>(s: State<M>, t: Tid)
    requires Proceeds(s, t) && Mutex(s) && Sleepers(s)
    ensures Mutex(Advance(s, t))
  {
    var r := Advance(s, t);
    var to := r.pcs[t];
    match s.pcs[t]
    case SendBuffer => LockDown(s, r, t, SendPut);
    case RecvBuffer => LockDown(s, r, t, RecvTake);
    case SendUnlock => LockUp(s, r, t, SendItem);
    case RecvUnlock => LockUp(s, r, t, RecvVaga);
    case _ => SameHolders(s, r, t, to);
  }

  lemma StepKeepsOuterSleepers<M>(s: State<M>, t: Tid)
    requires Proceeds(s, t) && Sleepers(s)
    ensures var r := Advance(s, t); AllAt(r.pcs, r.vaga.queue, SendBuffer) && AllAt(r.pcs, r.item.queue, RecvBuffer)
  {
    var to := Advance(s, t).pcs[t];
    AllAtOthers(s.pcs, s.vaga.queue, SendBuffer, t, to);
    AllAtOthers(s.pcs, s.item.queue, RecvBuffer, t, to);
    match s.pcs[t]
    case SendVaga => AllAtJoins(s.pcs, s.vaga.queue, SendBuffer, t);
    case RecvItem => AllAtJoins(s.pcs, s.item.queue, RecvBuffer, t);
    case RecvVaga => AllAtAfterUp(s.pcs, s.vaga, SendBuffer, t, to);
    case SendItem => AllAtAfterUp(s.pcs, s.item, RecvBuffer, t, to);
    case _ =>
  }

  lemma StepKeepsSleepers<M>(s: State<M>, t: Tid)
    requires Proceeds(s, t) && Sleepers(s)
    ensures Sleepers(Advance(s, t))
  {
    StepKeepsOuterSleepers(s, t);
    var r := Advance(s, t);
    forall u | u in r.lock.queue
      ensures u < |r.pcs| && (r.pcs[u] == SendPut || r.pcs[u] == RecvTake)
    {
      assert u in s.lock.queue || u == t;
    }
  }

  lemma StepKeepsHistory<M>(s: State<M>, t: Tid)
    requires Proceeds(s, t) && s.sent == s.taken + s.msgs
    ensures var r := Advance(s, t); Shape(r) && r.active && !r.fault && r.sent == r.taken + r.msgs
  {
    if s.pcs[t] == RecvTake {
      assert s.msgs == [s.msgs[0]] + s.msgs[1..];
    }
  }

  lemma CallKeepsLive<M>(s: State<M>, a: Step<M>)
    requires LiveInv(s) && Legal(s, a) && (a.CallSend? || a.CallRecv?)
    ensures LiveInv(Next(s, a))
  {
    var r := Next(s, a);
    var to := if a.CallSend? then SendVaga else RecvItem;
    SlotsPass(s, r, a.t, to);
    ItemsPass(s, r, a.t, to);
    SameHolders(s, r, a.t, to);
    SleepersStay(s, r, a.t, to);
  }

  lemma StepKeepsLive<M>(s: State<M>, a: Step<M>)
    requires LiveInv(s) && Legal(s, a) && a != DestroyQueue
    ensures LiveInv(Next(s, a))
  {
    if !a.Go? {
      CallKeepsLive(s, a);
    } else {
      if s.pcs[a.t] == RecvTake {
        ReceiverFindsMessage(s, a.t);
      }
      StepKeepsCounting(s, a.t);
      StepKeepsSlots(s, a.t);
      StepKeepsItems(s, a.t);
      StepKeepsMutex(s, a.t);
      StepKeepsSleepers(s, a.t);
      StepKeepsHistory(s, a.t);
    }
  }
}
