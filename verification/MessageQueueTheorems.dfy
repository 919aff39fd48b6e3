/** What every run of the message queue guarantees: delivery, no deadlock, and a clean shutdown. */
module MessageQueueTheorems {
  import opened MessageQueues

  // ---------------------------------------------------------------- runs

  ghost predicate IsRun<M>(states: seq<State<M>>, steps: seq<Step<M>>) {
    && |states| == |steps| + 1
    && forall i :: 0 <= i < |steps| ==> Legal(states[i], steps[i]) && states[i + 1] == Next(states[i], steps[i])
  }

  ghost predicate Starts<M>(s: State<M>, capacity: int) {
    s == Init(capacity, s.arg)
  }

  /** Every semaphore is destroyed, nobody sleeps, and the buffer is empty. */
  ghost predicate DeadInv<M>(s: State<M>) {
    && Shape(s) && !s.active && !s.fault && s.msgs == []
    && !s.vaga.active && !s.lock.active && !s.item.active
    && s.vaga.queue == [] && s.lock.queue == [] && s.item.queue == []
    && s.taken <= s.sent
  }

  ghost predicate Inv<M>(s: State<M>) {
    if s.active then LiveInv(s) else DeadInv(s)
  }

  lemma StepKeepsInv<M>(s: State<M>, a: Step<M>)
    requires Inv(s) && Legal(s, a)
    ensures Inv(Next(s, a))
    ensures !s.active ==> !Next(s, a).active
  {
    if s.active && a != DestroyQueue {
      StepKeepsLive(s, a);
    }
  }

  lemma {:induction false} RunKeepsInv<M>(states: seq<State<M>>, steps: seq<Step<M>>, capacity: nat, i: nat)
    requires IsRun(states, steps) && Starts(states[0], capacity) && i < |states|
    ensures Inv(states[i])
  {
    if i == 0 {
      InitIsLive(capacity, states[0].arg);
    } else {
      RunKeepsInv(states, steps, capacity, i - 1);
      StepKeepsInv(states[i - 1], steps[i - 1]);
    }
  }

  lemma {:induction false} SizesStay<M>(states: seq<State<M>>, steps: seq<Step<M>>, i: nat)
    requires IsRun(states, steps) && i < |states|
    ensures |states[i].pcs| == |states[0].pcs| && states[i].capacity == states[0].capacity
  {
    if i > 0 {
      SizesStay(states, steps, i - 1);
    }
  }

  // ---------------------------------------------------------------- delivery

  /** What a reader of the queue relies on at every moment of its life. */
  ghost predicate Delivering<M>(s: State<M>) {
    && !s.fault
    && s.taken <= s.sent
    && (s.active ==> s.sent == s.taken + s.msgs)
    && |s.msgs| <= s.capacity
    && (s.active ==> forall t, u :: Holds(s, t) && Holds(s, u) ==> t == u)
    && (s.active ==> forall t :: 0 <= t < |s.pcs| && s.pcs[t] == RecvTake ==> s.msgs != [])
  }

  lemma InvDelivers<M>(s: State<M>)
    requires Inv(s) && s.capacity >= 0
    ensures Delivering(s)
  {
    if s.active {
      TokensBoundBuffer(s);
    }
  }

  lemma RunDelivers<M>(states: seq<State<M>>, steps: seq<Step<M>>, capacity: nat, i: nat)
    requires IsRun(states, steps) && Starts(states[0], capacity) && i < |states|
    ensures Delivering(states[i])
  {
    RunKeepsInv(states, steps, capacity, i);
    SizesStay(states, steps, i);
    InvDelivers(states[i]);
  }

  /** Delivery holds in every run exactly when the queue is created with a capacity that is not negative. */
  lemma DeliversIff<M>(capacity: int, s: State<M>)
    requires Starts(s, capacity)
    ensures capacity >= 0 <==>
              forall states: seq<State<M>>, steps: seq<Step<M>>, i: nat ::
                IsRun(states, steps) && states[0] == s && i < |states| ==> Delivering(states[i])
  {
    if capacity >= 0 {
      forall states: seq<State<M>>, steps: seq<Step<M>>, i: nat | IsRun(states, steps) && states[0] == s && i < |states|
        ensures Delivering(states[i])
      {
        RunDelivers(states, steps, capacity, i);
      }
    } else {
      var none: seq<Step<M>> := [];
      assert IsRun([s], none) && [s][0] == s && !Delivering([s][0]);
    }
  }

  /** What a receiver takes out is the oldest message nobody has received. */
  lemma ReceiverGetsOldest<M>(s: State<M>, t: Tid)
    requires LiveInv(s) && Legal(s, Go(t)) && s.pcs[t] == RecvTake
    ensures |s.taken| < |s.sent| && Next(s, Go(t)).arg == s.arg[t := s.sent[|s.taken|]]
  {
    TokensBoundBuffer(s);
  }

  // ---------------------------------------------------------------- no deadlock

  /** Whoever waits for s_buffer waits for a task that is awake and can leave it. */
  lemma LockHasAwakeHolder<M>(s: State<M>, t: Tid) returns (h: Tid)
    requires LiveInv(s) && t in s.lock.queue
    ensures Holds(s, h) && Awake(s, h) && Legal(s, Go(h))
  {
    assert s.lock.value < 0;
    h :| Holds(s, h);
  }

  /** Nobody is in the middle of a call except by sleeping. */
  ghost predicate Quiet<M>(s: State<M>) {
    forall t :: 0 <= t < |s.pcs| ==> s.pcs[t] == Idle || !Awake(s, t)
  }

  lemma QuietPlaces<M>(s: State<M>)
    requires LiveInv(s) && Quiet(s)
    ensures s.lock.queue == []
    ensures forall t :: 0 <= t < |s.pcs| ==>
              s.pcs[t] == Idle
              || (s.pcs[t] == SendBuffer && t in s.vaga.queue)
              || (s.pcs[t] == RecvBuffer && t in s.item.queue)
  {
    if s.lock.queue != [] {
      var h := LockHasAwakeHolder(s, s.lock.queue[0]);
    }
  }

  lemma NobodyAt(pcs: seq<Pc>, pc: Pc)
    requires pc !in pcs
    ensures Count(pcs, pc) == 0
  {
    assert pc !in multiset(pcs);
  }

  /** With nobody under way, a sleeping sender means a full buffer and a sleeping receiver an empty one. */
  lemma QuietMeansFullOrEmpty<M>(s: State<M>)
    requires LiveInv(s) && Quiet(s)
    ensures s.vaga.queue != [] ==> |s.msgs| == s.capacity
    ensures s.item.queue != [] ==> s.msgs == []
    ensures s.lock.queue == []
  {
    QuietPlaces(s);
    CountExactly(s.pcs, s.vaga.queue, SendBuffer);
    CountExactly(s.pcs, s.item.queue, RecvBuffer);
    NobodyAt(s.pcs, SendPut);
    NobodyAt(s.pcs, SendUnlock);
    NobodyAt(s.pcs, SendItem);
    NobodyAt(s.pcs, RecvTake);
    NobodyAt(s.pcs, RecvUnlock);
    NobodyAt(s.pcs, RecvVaga);
  }

  /** Senders and receivers asleep facing each other with nobody left to wake either. */
  ghost predicate Deadlocked<M>(s: State<M>) {
    s.active && Quiet(s) && s.vaga.queue != [] && s.item.queue != []
  }

  lemma NeverDeadlocked<M>(states: seq<State<M>>, steps: seq<Step<M>>, capacity: nat, i: nat)
    requires IsRun(states, steps) && Starts(states[0], capacity) && i < |states| && capacity >= 1
    ensures !Deadlocked(states[i])
  {
    RunKeepsInv(states, steps, capacity, i);
    SizesStay(states, steps, i);
    if Deadlocked(states[i]) {
      QuietMeansFullOrEmpty(states[i]);
    }
  }

  /** A queue without room: one sender and one receiver sleep for good. */
  lemma NoRoomDeadlocks<M>(capacity: int, blank: M) returns (states: seq<State<M>>, steps: seq<Step<M>>)
    requires capacity <= 0
    ensures IsRun(states, steps) && Starts(states[0], capacity) && Deadlocked(states[|steps|])
  {
    var s0 := Init(capacity, [blank, blank]);
    var s1 := Next(s0, CallSend(0, blank));
    var s2 := Next(s1, Go(0));
    var s3 := Next(s2, CallRecv(1));
    var s4 := Next(s3, Go(1));
    states := [s0, s1, s2, s3, s4];
    steps := [CallSend(0, blank), Go(0), CallRecv(1), Go(1)];
    assert s4.vaga.queue == [0] && s4.item.queue == [1];
  }

  /** Senders and receivers can be stuck together exactly when the queue has no room at all. */
  lemma DeadlockFreeIff<M>(capacity: int, blank: M)
    ensures capacity >= 1 <==>
              forall states: seq<State<M>>, steps: seq<Step<M>>, i: nat ::
                IsRun(states, steps) && Starts(states[0], capacity) && i < |states| ==> !Deadlocked(states[i])
  {
    if capacity >= 1 {
      forall states: seq<State<M>>, steps: seq<Step<M>>, i: nat |
        IsRun(states, steps) && Starts(states[0], capacity) && i < |states|
        ensures !Deadlocked(states[i])
      {
        NeverDeadlocked(states, steps, capacity, i);
      }
    } else {
      var states, steps := NoRoomDeadlocks(capacity, blank);
      assert Deadlocked(states[|steps|]);
    }
  }

  // ---------------------------------------------------------------- shutdown

  /** mqueue_destroy wakes everybody and empties the buffer. */
  lemma DestroyEndsWaiting<M>(s: State<M>)
    requires Inv(s)
    ensures DeadInv(Next(s, DestroyQueue))
    ensures forall t :: Awake(Next(s, DestroyQueue), t)
  {}

  /** Past mqueue_destroy these calls still have the queue's active flag to read. */
  predicate Pending(pc: Pc) {
    pc == SendVaga || pc == SendBuffer || pc == SendPut || pc == RecvItem || pc == RecvBuffer || pc == RecvTake
  }

  /** How many steps such a call has left. */
  function Left(pc: Pc): nat {
    if pc == SendVaga || pc == RecvItem then 3
    else if pc == SendBuffer || pc == RecvBuffer then 2
    else if pc == SendPut || pc == RecvTake then 1
    else 0
  }

  function Turns<M>(steps: seq<Step<M>>, t: Tid): nat {
    if steps == [] then 0
    else Turns(steps[..|steps| - 1], t) + (if steps[|steps| - 1] == Go(t) then 1 else 0)
  }

  /** A task asleep in the queue when it is destroyed is in a call that will still see the flag. */
  lemma SleepersArePending<M>(s: State<M>, t: Tid)
    requires LiveInv(s) && !Awake(s, t)
    ensures t < |s.pcs| && Pending(s.pcs[t])
  {
    if t in s.vaga.queue {
      assert s.pcs[t] == SendBuffer;
    } else if t in s.item.queue {
      assert s.pcs[t] == RecvBuffer;
    }
  }

  /** Once destroyed: nothing is put, nothing is taken, nobody's message changes, nobody sleeps. */
  lemma {:induction false} NothingHappensAfter<M>(states: seq<State<M>>, steps: seq<Step<M>>, i: nat)
    requires IsRun(states, steps) && DeadInv(states[0]) && i < |states|
    ensures DeadInv(states[i]) && forall t :: Awake(states[i], t)
    ensures states[i].sent == states[0].sent && states[i].taken == states[0].taken && states[i].arg == states[0].arg
    ensures |states[i].pcs| == |states[0].pcs|
  {
    if i > 0 {
      NothingHappensAfter(states, steps, i - 1);
      StepKeepsInv(states[i - 1], steps[i - 1]);
    }
  }

  /** A call caught by mqueue_destroy: still on its way with `left` steps to go, or over with -1. */
  ghost predicate Caught<M>(s: State<M>, t: Tid, left: int) {
    && t < |s.pcs| && t < |s.ret|
    && (left > 0 ==> Pending(s.pcs[t]) && Left(s.pcs[t]) == left && Legal(s, Go(t)))
    && (left <= 0 ==> s.pcs[t] == Idle && s.ret[t] == -1)
  }

  lemma CaughtStep<M>(s: State<M>, a: Step<M>, t: Tid, left: int)
    requires DeadInv(s) && Legal(s, a) && Caught(s, t, left)
    ensures Caught(Next(s, a), t, if a == Go(t) then left - 1 else left)
  {}

  /** Such a call returns -1 after the few steps it has left, and can always take the next one. */
  lemma {:induction false} PendingCallsFail<M>(states: seq<State<M>>, steps: seq<Step<M>>, t: Tid, i: nat)
    requires IsRun(states, steps) && DeadInv(states[0]) && i < |states|
    requires t < |states[0].pcs| && Pending(states[0].pcs[t])
    ensures Caught(states[i], t, Left(states[0].pcs[t]) - Turns(steps[..i], t))
  {
    if i == 0 {
      assert steps[..i] == [];
    } else {
      PendingCallsFail(states, steps, t, i - 1);
      NothingHappensAfter(states, steps, i - 1);
      CaughtStep(states[i - 1], steps[i - 1], t, Left(states[0].pcs[t]) - Turns(steps[..i - 1], t));
      assert steps[..i][..i - 1] == steps[..i - 1];
    }
  }
}
