/** What a task's record says, in terms of the calls that were made: theorems over whole runs. */
module KernelHistories {
  import opened Sequences
  import opened KernelSpec
  import opened KernelRings
  import opened KernelRuns
  import opened KernelTheorems
  import opened Fairness
  import opened KernelEffects

  // ---------------------------------------------------------------- priorities

  /** The priority last given to t by the first i actions: 0 from its creation on, until task_setprio says otherwise. */
  function Given<T(==)>(actions: seq<Action<T>>, t: T, i: nat): int
    requires i <= |actions|
  {
    if i == 0 then 0
    else
      match actions[i - 1]
      case Prio(u, prio) => if u == t then prio else Given(actions, t, i - 1)
      case Init(u) => if u == t then 0 else Given(actions, t, i - 1)
      case _ => Given(actions, t, i - 1)
  }

  /** Every task's static priority is the one it was given, and its dynamic one is never less urgent. */
  ghost predicate PrioritiesAsGiven<T>(s: State<T>, actions: seq<Action<T>>, i: nat) {
    && i <= |actions| && Shape(s)
    && forall t :: t in s.tcb && t != s.dispatcher ==>
         s.tcb[t].staticPriority == Given(actions, t, i) && s.tcb[t].dynamicPriority <= Given(actions, t, i)
  }

  lemma PrioritiesStep<T>(s: State<T>, actions: seq<Action<T>>, i: nat)
    requires Inv(s) && i < |actions| && Legal(s, actions[i]) && PrioritiesAsGiven(s, actions, i)
    ensures PrioritiesAsGiven(Next(s, actions[i]), actions, i + 1)
  {
    var a := actions[i];
    var r := Next(s, a);
    GlobalsAreTold(s, a);
    forall t | t in r.tcb && t != r.dispatcher
      ensures r.tcb[t].staticPriority == Given(actions, t, i + 1) && r.tcb[t].dynamicPriority <= Given(actions, t, i + 1)
    {
      NobodyElseIsNew(s, a, t);
      if t in s.tcb {
        RecordIsTold(s, a, t);
      } else {
        NewRecordIsTold(s, t);
      }
    }
  }

  lemma RunPrioritiesStep<T>(states: seq<State<T>>, actions: seq<Action<T>>, main: T, i: nat)
    requires IsRun(states, actions) && Boots(states[0], main) && i < |actions| && PrioritiesAsGiven(states[i], actions, i)
    ensures PrioritiesAsGiven(states[i + 1], actions, i + 1)
  {
    RunKeepsInv(states, actions, main, i);
    PrioritiesStep(states[i], actions, i);
  }

  lemma {:induction false} RunPriorities<T>(states: seq<State<T>>, actions: seq<Action<T>>, main: T, i: nat)
    requires IsRun(states, actions) && Boots(states[0], main) && i < |states|
    ensures PrioritiesAsGiven(states[i], actions, i)
    decreases i
  {
    if i > 0 {
      RunPriorities(states, actions, main, i - 1);
      RunPrioritiesStep(states, actions, main, i - 1);
    }
  }

  /**
   * task_setprio gives exactly the priority asked for: the static one is the argument of the
   * last call on that task, 0 if there was none; right after the call the dynamic one is too,
   * and nobody else's priorities have changed.
   */
  lemma PriorityIsGiven<T>(states: seq<State<T>>, actions: seq<Action<T>>, main: T, i: nat, t: T)
    requires IsRun(states, actions) && Boots(states[0], main) && i < |states|
    requires t in states[i].tcb && t != states[i].dispatcher
    ensures states[i].tcb[t].staticPriority == Given(actions, t, i)
    ensures states[i].tcb[t].dynamicPriority <= Given(actions, t, i)
    ensures i > 0 && actions[i - 1].Prio? && actions[i - 1].t == t ==>
              states[i].tcb[t].dynamicPriority == actions[i - 1].prio == Given(actions, t, i)
    ensures i > 0 && actions[i - 1].Prio? && actions[i - 1].t != t ==>
              t in states[i - 1].tcb && states[i].tcb[t].dynamicPriority == states[i - 1].tcb[t].dynamicPriority
  {
    RunPriorities(states, actions, main, i);
    if i > 0 && actions[i - 1].Prio? {
      RunTold(states, actions, main, i - 1, t);
    }
  }

  lemma RunTold<T>(states: seq<State<T>>, actions: seq<Action<T>>, main: T, i: nat, t: T)
    requires IsRun(states, actions) && Boots(states[0], main) && i < |actions| && t in states[i + 1].tcb
    ensures Legal(states[i], actions[i]) && states[i + 1] == Next(states[i], actions[i])
    ensures t in states[i].tcb || actions[i] == Init(t)
    ensures t in states[i].tcb ==> states[i + 1].tcb[t] == RecordAfter(states[i], actions[i], t)
    ensures t !in states[i].tcb ==>
              actions[i] == Init(t) && states[i + 1].tcb[t] == Tcb(states[i].lastId + 1, Ready, 0, 0, 0, 0, 0, -1, 0)
  {
    RunKeepsInv(states, actions, main, i);
    NobodyElseIsNew(states[i], actions[i], t);
    if t in states[i].tcb {
      RecordIsTold(states[i], actions[i], t);
    } else {
      NewRecordIsTold(states[i], t);
    }
  }

  /** No starvation in the callers' terms: a ready task given priority g is passed over at most g - L + N - 1 times in a row. */
  lemma NobodyStarvesAsGiven<T>(states: seq<State<T>>, actions: seq<Action<T>>, main: T, L: int, N: nat, t: T, i: nat, j: nat)
    requires IsRun(states, actions) && Boots(states[0], main) && Bounded(states, actions, L, N)
    requires PassedOver(states, actions, t, i, j) && t != states[i].dispatcher
    ensures Calls(actions, i, j) <= Given(actions, t, i) - L + N - 1
  {
    NoStarvation(states, actions, main, L, N, t, i, j);
    RunPriorities(states, actions, main, i);
  }

  // ---------------------------------------------------------------- ids

  function Inits<T>(actions: seq<Action<T>>, i: nat): nat
    requires i <= |actions|
  {
    if i == 0 then 0 else Inits(actions, i - 1) + (if actions[i - 1].Init? then 1 else 0)
  }

  /** The number of the creation that made t, counting from one. */
  function Birth<T(==)>(actions: seq<Action<T>>, t: T, i: nat): nat
    requires i <= |actions|
  {
    if i == 0 then 0
    else if actions[i - 1] == Init(t) then Inits(actions, i)
    else Birth(actions, t, i - 1)
  }

  ghost predicate IdsByBirth<T>(s: State<T>, actions: seq<Action<T>>, main: T, i: nat) {
    && i <= |actions| && s.lastId == Inits(actions, i)
    && forall t :: t in s.tcb && t != s.dispatcher ==> s.tcb[t].id == Birth(actions, t, i)
  }

  lemma IdsStep<T>(s: State<T>, actions: seq<Action<T>>, main: T, i: nat)
    requires Inv(s) && i < |actions| && Legal(s, actions[i]) && IdsByBirth(s, actions, main, i)
    ensures IdsByBirth(Next(s, actions[i]), actions, main, i + 1)
  {
    var a := actions[i];
    var r := Next(s, a);
    GlobalsAreTold(s, a);
    forall t | t in r.tcb && t != r.dispatcher
      ensures r.tcb[t].id == Birth(actions, t, i + 1)
    {
      NobodyElseIsNew(s, a, t);
      if t in s.tcb {
        RecordIsTold(s, a, t);
      } else {
        NewRecordIsTold(s, t);
      }
    }
  }

  lemma RunIdsStep<T>(states: seq<State<T>>, actions: seq<Action<T>>, main: T, i: nat)
    requires IsRun(states, actions) && Boots(states[0], main) && i < |actions| && IdsByBirth(states[i], actions, main, i)
    ensures IdsByBirth(states[i + 1], actions, main, i + 1)
  {
    RunKeepsInv(states, actions, main, i);
    IdsStep(states[i], actions, main, i);
  }

  /** The main task has id 0 and the others 1, 2, 3, ... in the order of their creation, for good. */
  lemma {:induction false} IdsCountCreations<T>(states: seq<State<T>>, actions: seq<Action<T>>, main: T, i: nat)
    requires IsRun(states, actions) && Boots(states[0], main) && i < |states|
    ensures IdsByBirth(states[i], actions, main, i)
    decreases i
  {
    if i > 0 {
      IdsCountCreations(states, actions, main, i - 1);
      RunIdsStep(states, actions, main, i - 1);
    }
  }

  // ---------------------------------------------------------------- activations

  /** How often the dispatcher handed the processor to t in the first i steps; to anybody, for the dispatcher itself. */
  ghost function Handed<T>(states: seq<State<T>>, actions: seq<Action<T>>, t: T, i: nat): nat
    requires i <= |actions| < |states|
  {
    if i == 0 then 0
    else
      var r := states[i];
      Handed(states, actions, t, i - 1)
      + (if actions[i - 1].Schedule? && r.curr != r.dispatcher && (r.curr == t || r.dispatcher == t) then 1 else 0)
  }

  lemma RunElects<T>(states: seq<State<T>>, actions: seq<Action<T>>, main: T, i: nat)
    requires IsRun(states, actions) && Boots(states[0], main) && i < |actions|
    ensures Shape(states[i]) && Legal(states[i], actions[i]) && states[i + 1].dispatcher == states[i].dispatcher
    ensures Elects(states[i], actions[i]) <==> actions[i].Schedule? && states[i + 1].curr != states[i + 1].dispatcher
    ensures Elects(states[i], actions[i]) ==> states[i + 1].curr == CurrAfter(states[i], actions[i])
  {
    RunKeepsInv(states, actions, main, i);
    GlobalsAreTold(states[i], actions[i]);
    ChosenIsNotDispatcher(states[i]);
  }

  lemma ChosenIsNotDispatcher<T>(s: State<T>)
    requires Inv(s)
    ensures s.dispatcher !in Candidates(s)
  {
    NotTaken(s);
  }

  lemma RunKeepsTasks<T>(states: seq<State<T>>, actions: seq<Action<T>>, main: T, i: nat, t: T)
    requires IsRun(states, actions) && Boots(states[0], main) && i < |actions| && t !in states[i + 1].tcb
    ensures t !in states[i].tcb && states[i + 1].curr != t && states[i + 1].dispatcher != t
  {
    RunKeepsInv(states, actions, main, i);
    RunKeepsInv(states, actions, main, i + 1);
    StepIsTold(states[i], actions[i]);
  }

  /** Nobody gets the processor before being created. */
  lemma {:induction false} UnbornNeverRuns<T>(states: seq<State<T>>, actions: seq<Action<T>>, main: T, t: T, i: nat)
    requires IsRun(states, actions) && Boots(states[0], main) && i < |states| && t !in states[i].tcb
    ensures Handed(states, actions, t, i) == 0 && t != main
    decreases i
  {
    if i > 0 {
      RunKeepsTasks(states, actions, main, i - 1, t);
      UnbornNeverRuns(states, actions, main, t, i - 1);
    }
  }

  lemma ActivationsStep<T>(states: seq<State<T>>, actions: seq<Action<T>>, main: T, t: T, i: nat)
    requires IsRun(states, actions) && Boots(states[0], main) && i < |actions| && t in states[i].tcb
    ensures t in states[i + 1].tcb
    ensures states[i + 1].tcb[t].activations - states[i].tcb[t].activations
            == Handed(states, actions, t, i + 1) - Handed(states, actions, t, i)
  {
    RunKeepsInv(states, actions, main, i);
    RecordIsTold(states[i], actions[i], t);
    RunElects(states, actions, main, i);
  }

  /** Every task's count of activations is right, the main task's starting at one. */
  lemma {:induction false} ActivationsAreCounted<T>(states: seq<State<T>>, actions: seq<Action<T>>, main: T, t: T, i: nat)
    requires IsRun(states, actions) && Boots(states[0], main) && i < |states| && t in states[i].tcb
    ensures states[i].tcb[t].activations == Handed(states, actions, t, i) + (if t == main then 1 else 0)
    decreases i
  {
    if i > 0 {
      var k := i - 1;
      if t in states[k].tcb {
        ActivationsAreCounted(states, actions, main, t, k);
        ActivationsStep(states, actions, main, t, k);
      } else {
        BornUnactivated(states, actions, main, t, k);
      }
    }
  }

  lemma BornUnactivated<T>(states: seq<State<T>>, actions: seq<Action<T>>, main: T, t: T, i: nat)
    requires IsRun(states, actions) && Boots(states[0], main) && i < |actions| && t !in states[i].tcb && t in states[i + 1].tcb
    ensures states[i + 1].tcb[t].activations == 0 && t != main && Handed(states, actions, t, i + 1) == 0
  {
    UnbornNeverRuns(states, actions, main, t, i);
    RunTold(states, actions, main, i, t);
  }

  // ---------------------------------------------------------------- the time slice

  lemma RunHolds<T>(states: seq<State<T>>, actions: seq<Action<T>>, main: T, t: T, j: nat)
    requires IsRun(states, actions) && Boots(states[0], main) && j < |actions| && actions[j].Timer?
    requires states[j].curr == t && t != states[j].dispatcher
    ensures states[j + 1].curr == (if QuantumOf(states[j], t) == 9 then states[j].dispatcher else t)
    ensures states[j + 1].dispatcher == states[j].dispatcher
  {
    RunKeepsInv(states, actions, main, j);
    GlobalsAreTold(states[j], actions[j]);
  }

  lemma ChosenStartsFresh<T>(states: seq<State<T>>, actions: seq<Action<T>>, main: T, i: nat)
    requires IsRun(states, actions) && Boots(states[0], main) && i < |actions| && actions[i].Schedule?
    requires states[i + 1].curr != states[i + 1].dispatcher
    ensures QuantumOf(states[i + 1], states[i + 1].curr) == 0
  {
    RunElects(states, actions, main, i);
    RunKeepsInv(states, actions, main, i + 1);
    RunTold(states, actions, main, i, states[i + 1].curr);
  }

  /**
   * A tick takes the processor from its holder exactly when it is the tenth since the
   * scheduler gave it the processor, whatever calls the holder made in between.
   */
  lemma TenthTickPreempts<T>(states: seq<State<T>>, actions: seq<Action<T>>, main: T, t: T, i: nat, j: nat)
    requires IsRun(states, actions) && Boots(states[0], main) && i < j < |actions|
    requires actions[i].Schedule? && Holds(states, t, i + 1, j) && actions[j].Timer?
    ensures states[j + 1].curr == t <==> TicksBetween(actions, i + 1, j + 1) < 10
    ensures states[j + 1].curr == states[j + 1].dispatcher <==> TicksBetween(actions, i + 1, j + 1) == 10
  {
    ChosenStartsFresh(states, actions, main, i);
    HolderCountsTicks(states, actions, main, t, i + 1, j);
    TimeSlice(states, actions, main, t, i + 1, j);
    RunHolds(states, actions, main, t, j);
  }

  /** What a tick does to its holder t: the processor is gone when nine ticks had been counted. */
  ghost predicate TickMove<T>(s: State<T>, r: State<T>, t: T) {
    s.curr == t && t != s.dispatcher ==>
      && r.dispatcher == s.dispatcher
      && r.curr == (if QuantumOf(s, t) == 9 then s.dispatcher else t)
      && (QuantumOf(s, t) < 9 ==> QuantumOf(r, t) == QuantumOf(s, t) + 1)
  }

  lemma RunTickMove<T>(states: seq<State<T>>, actions: seq<Action<T>>, main: T, t: T, k: nat)
    requires IsRun(states, actions) && Boots(states[0], main) && k < |actions| && actions[k].Timer?
    ensures TickMove(states[k], states[k + 1], t)
  {
    RunKeepsInv(states, actions, main, k);
    GlobalsAreTold(states[k], actions[k]);
    if t in states[k].tcb {
      RecordIsTold(states[k], actions[k], t);
    }
  }

  ghost predicate TickMoves<T>(states: seq<State<T>>, t: T, i: nat, n: nat) {
    i + n < |states| && forall k :: i <= k < i + n ==> TickMove(states[k], states[k + 1], t)
  }

  lemma {:induction false} TicksCount<T>(states: seq<State<T>>, t: T, i: nat, n: nat)
    requires TickMoves(states, t, i, n) && n <= 10
    requires states[i].curr == t && t != states[i].dispatcher && QuantumOf(states[i], t) == 0
    ensures states[i + n].dispatcher == states[i].dispatcher
    ensures states[i + n].curr == if n < 10 then t else states[i].dispatcher
    ensures n < 10 ==> QuantumOf(states[i + n], t) == n
    decreases n
  {
    if n > 0 {
      TicksCount(states, t, i, n - 1);
      var k := i + n - 1;
      assert TickMove(states[k], states[k + 1], t);
    }
  }

  /** With nothing but ticks after it, a scheduler call gives its choice the processor for nine ticks, and the tenth ends it. */
  lemma TenTicks<T>(states: seq<State<T>>, actions: seq<Action<T>>, main: T, i: nat, n: nat)
    requires IsRun(states, actions) && Boots(states[0], main) && i + n < |actions| && n <= 10
    requires actions[i].Schedule? && states[i + 1].curr != states[i + 1].dispatcher
    requires forall k :: i < k <= i + n ==> actions[k].Timer?
    ensures states[i + 1 + n].curr == if n < 10 then states[i + 1].curr else states[i + 1].dispatcher
  {
    ChosenStartsFresh(states, actions, main, i);
    forall k | i + 1 <= k < i + 1 + n
      ensures TickMove(states[k], states[k + 1], states[i + 1].curr)
    {
      RunTickMove(states, actions, main, states[i + 1].curr, k);
    }
    TicksCount(states, states[i + 1].curr, i + 1, n);
  }

  /** The main task's first slice counts from the start. */
  lemma FirstSlice<T>(states: seq<State<T>>, actions: seq<Action<T>>, main: T, n: nat)
    requires IsRun(states, actions) && Boots(states[0], main) && n <= |actions| && n <= 10
    requires forall k :: 0 <= k < n ==> actions[k].Timer?
    ensures states[n].curr == if n < 10 then main else states[n].dispatcher
  {
    forall k | 0 <= k < 0 + n
      ensures TickMove(states[k], states[k + 1], main)
    {
      RunTickMove(states, actions, main, main, k);
    }
    TicksCount(states, main, 0, n);
  }

  /** The ticks that have fallen while the dispatcher itself was running. */
  ghost function OwnTicks<T>(states: seq<State<T>>, actions: seq<Action<T>>, i: nat): nat
    requires i <= |actions| && i <= |states|
  {
    if i == 0 then 0
    else OwnTicks(states, actions, i - 1) + (if actions[i - 1].Timer? && states[i - 1].curr == states[i - 1].dispatcher then 1 else 0)
  }

  lemma RunOwnTick<T>(states: seq<State<T>>, actions: seq<Action<T>>, main: T, i: nat)
    requires IsRun(states, actions) && Boots(states[0], main) && i < |actions|
    ensures var s, r := states[i], states[i + 1];
            && r.dispatcher == s.dispatcher
            && QuantumOf(r, s.dispatcher) ==
               if !(actions[i].Timer? && s.curr == s.dispatcher) then QuantumOf(s, s.dispatcher)
               else if QuantumOf(s, s.dispatcher) == 9 then 0
               else QuantumOf(s, s.dispatcher) + 1
  {
    RunKeepsInv(states, actions, main, i);
    GlobalsAreTold(states[i], actions[i]);
    RecordIsTold(states[i], actions[i], states[i].dispatcher);
    ChosenIsNotDispatcher(states[i]);
  }

  /** The dispatcher has no slice to speak of: its quantum is used up by the tick number INT_MAX + 10 of its own, not before. */
  lemma {:induction false} DispatcherIsNotPreempted<T>(states: seq<State<T>>, actions: seq<Action<T>>, main: T, i: nat)
    requires IsRun(states, actions) && Boots(states[0], main) && i < |states|
    requires OwnTicks(states, actions, i) < 0x7FFF_FFFF + 10
    ensures QuantumOf(states[i], states[i].dispatcher) == OwnTicks(states, actions, i) - 0x7FFF_FFFF
    decreases i
  {
    if i > 0 {
      DispatcherIsNotPreempted(states, actions, main, i - 1);
      RunOwnTick(states, actions, main, i - 1);
    }
  }

  // ---------------------------------------------------------------- the dispatcher's choice

  /** The chosen one is as urgent as anybody, and more urgent than everybody before it. */
  ghost predicate FirstOfTheMostUrgent<T>(ready: seq<T>, tcb: map<T, Tcb>, c: nat) {
    && c < |ready| && (forall i :: 0 <= i < |ready| ==> ready[i] in tcb)
    && (forall i :: 0 <= i < |ready| ==> tcb[ready[c]].dynamicPriority <= tcb[ready[i]].dynamicPriority)
    && (forall i :: 0 <= i < c ==> tcb[ready[c]].dynamicPriority < tcb[ready[i]].dynamicPriority)
  }

  lemma {:induction false} ChoiceIsFirst<T>(ready: seq<T>, tcb: map<T, Tcb>) returns (c: nat)
    requires ready != [] && forall i :: 0 <= i < |ready| ==> ready[i] in tcb
    ensures FirstOfTheMostUrgent(ready, tcb, c) && Choose(ready, tcb) == ready[c]
    decreases |ready|
  {
    var last := |ready| - 1;
    c := 0;
    if last > 0 {
      c := ChoiceIsFirst(ready[..last], tcb);
      if tcb[ready[last]].dynamicPriority < tcb[ready[c]].dynamicPriority {
        c := last;
      }
    }
  }

  /**
   * A round of the dispatcher looks at the ready tasks and, behind them, the sleepers that are
   * due: it runs the first of the most urgent, and nobody exactly if there is none of either.
   */
  lemma RoundRunsMostUrgent<T>(s: State<T>) returns (c: nat)
    requires Inv(s) && Legal(s, Schedule)
    ensures Dispatch(s).curr == s.dispatcher
            <==> s.rings[READY_RING] == [] && forall t :: t in s.rings[SLEEPING_RING] ==> s.tcb[t].wakeUpTime > s.clock
    ensures Candidates(s) != [] ==> FirstOfTheMostUrgent(Candidates(s), s.tcb, c) && Dispatch(s).curr == Candidates(s)[c]
  {
    GlobalsAreTold(s, Schedule);
    ChosenIsNotDispatcher(s);
    StablePartition(s.rings[SLEEPING_RING], s.tcb, Alarm(s.clock));
    c := 0;
    if Candidates(s) != [] {
      c := ChoiceIsFirst(Candidates(s), s.tcb);
    }
  }

  // ---------------------------------------------------------------- sleeping

  /** Task t sleeps until that time. */
  ghost predicate Asleep<T>(s: State<T>, t: T, alarm: int) {
    Shape(s) && t in s.rings[SLEEPING_RING] && s.tcb[t].wakeUpTime == alarm
  }

  lemma SleeperRings<T>(s: State<T>, a: Action<T>, t: T)
    requires Inv(s) && Legal(s, a) && t in s.rings[SLEEPING_RING]
    ensures var r, due := Next(s, a), a.Schedule? && s.tcb[t].wakeUpTime <= s.clock;
            && (t in r.rings[SLEEPING_RING] <==> !due)
            && (due ==> t in r.rings[READY_RING])
  {
    RingIsTold(s, a, SLEEPING_RING);
    RingIsTold(s, a, READY_RING);
    if a.Schedule? {
      StablePartition(s.rings[SLEEPING_RING], s.tcb, Alarm(s.clock));
    }
  }

  lemma SleeperRecord<T>(s: State<T>, a: Action<T>, t: T)
    requires Inv(s) && Legal(s, a) && t in s.rings[SLEEPING_RING]
    ensures t in Next(s, a).tcb && Next(s, a).tcb[t].wakeUpTime == s.tcb[t].wakeUpTime
  {
    assert Linked(s.rings, t);
    RecordIsTold(s, a, t);
  }

  lemma SleeperStep<T>(s: State<T>, a: Action<T>, t: T, alarm: int)
    requires Inv(s) && Legal(s, a) && Asleep(s, t, alarm)
    ensures var r := Next(s, a);
            if a.Schedule? && alarm <= s.clock then t in r.rings[READY_RING] && t !in r.rings[SLEEPING_RING]
            else Asleep(r, t, alarm)
  {
    SleeperRings(s, a, t);
    SleeperRecord(s, a, t);
  }

  lemma SleepStarted<T>(s: State<T>, d: int)
    requires Inv(s) && s.curr != s.dispatcher
    ensures Asleep(TaskSleep(s, d), s.curr, s.clock + d)
  {
    RecordIsTold(s, Sleep(d), s.curr);
    RingIsTold(s, Sleep(d), SLEEPING_RING);
  }

  /** The sleeper's part of one step. */
  ghost predicate SleepMove<T>(s: State<T>, a: Action<T>, r: State<T>, t: T, alarm: int) {
    Asleep(s, t, alarm) ==>
      if a.Schedule? && alarm <= s.clock then InRing(r, READY_RING, t) && !InRing(r, SLEEPING_RING, t) else Asleep(r, t, alarm)
  }

  lemma RunSleepMove<T>(states: seq<State<T>>, actions: seq<Action<T>>, main: T, t: T, alarm: int, j: nat)
    requires IsRun(states, actions) && Boots(states[0], main) && j < |actions|
    ensures SleepMove(states[j], actions[j], states[j + 1], t, alarm)
  {
    RunKeepsInv(states, actions, main, j);
    if Asleep(states[j], t, alarm) {
      SleeperStep(states[j], actions[j], t, alarm);
    }
  }

  lemma RunSleepStarts<T>(states: seq<State<T>>, actions: seq<Action<T>>, main: T, j: nat)
    requires IsRun(states, actions) && Boots(states[0], main) && j < |actions| && actions[j].Sleep?
    ensures Asleep(states[j + 1], states[j].curr, states[j].clock + actions[j].d)
  {
    RunKeepsInv(states, actions, main, j);
    SleepStarted(states[j], actions[j].d);
  }

  ghost predicate SleepMoves<T>(states: seq<State<T>>, actions: seq<Action<T>>, t: T, alarm: int, i: nat, j: nat) {
    && i < j <= |actions| < |states|
    && forall k :: i < k < j ==> SleepMove(states[k], actions[k], states[k + 1], t, alarm)
  }

  lemma {:induction false} SleepsOn<T>(states: seq<State<T>>, actions: seq<Action<T>>, t: T, alarm: int, i: nat, j: nat)
    requires SleepMoves(states, actions, t, alarm, i, j) && NotYet(states, actions, i, j, alarm)
    requires Asleep(states[i + 1], t, alarm)
    ensures Asleep(states[j], t, alarm)
    decreases j
  {
    if i + 1 < j {
      SleepsOn(states, actions, t, alarm, i, j - 1);
      var k := j - 1;
      assert SleepMove(states[k], actions[k], states[k + 1], t, alarm);
    }
  }

  lemma RunSleepMoves<T>(states: seq<State<T>>, actions: seq<Action<T>>, main: T, t: T, alarm: int, i: nat, j: nat)
    requires IsRun(states, actions) && Boots(states[0], main) && i < j <= |actions|
    ensures SleepMoves(states, actions, t, alarm, i, j)
  {
    forall k | i < k < j
      ensures SleepMove(states[k], actions[k], states[k + 1], t, alarm)
    {
      RunSleepMove(states, actions, main, t, alarm, k);
    }
  }

  /** No round of the dispatcher between steps i and j finds the time reached. */
  ghost predicate NotYet<T>(states: seq<State<T>>, actions: seq<Action<T>>, i: nat, j: nat, alarm: int) {
    && i < j <= |actions| < |states|
    && forall m :: i < m < j && actions[m].Schedule? ==> states[m].clock < alarm
  }

  /**
   * A task that sleeps for d ticks sleeps exactly until the first round of the dispatcher that
   * finds them over: up to that round it is in the sleeping ring, after it in the ready ring.
   */
  lemma SleepsExactly<T>(states: seq<State<T>>, actions: seq<Action<T>>, main: T, i: nat, j: nat)
    requires IsRun(states, actions) && Boots(states[0], main) && i < j <= |actions| && actions[i].Sleep?
    requires NotYet(states, actions, i, j, states[i].clock + actions[i].d)
    ensures Asleep(states[j], states[i].curr, states[i].clock + actions[i].d)
    ensures j < |actions| && actions[j].Schedule? && states[i].clock + actions[i].d <= states[j].clock ==>
              InRing(states[j + 1], READY_RING, states[i].curr) && !InRing(states[j + 1], SLEEPING_RING, states[i].curr)
  {
    var t, alarm := states[i].curr, states[i].clock + actions[i].d;
    RunSleepStarts(states, actions, main, i);
    RunSleepMoves(states, actions, main, t, alarm, i, j);
    SleepsOn(states, actions, t, alarm, i, j);
    if j < |actions| {
      RunSleepMove(states, actions, main, t, alarm, j);
    }
  }

  // ---------------------------------------------------------------- what a record says about a task

  /** A task waits for an id exactly while it is among the joiners. */
  ghost predicate WaitsIffJoining<T>(s: State<T>) {
    && Shape(s)
    && forall t :: t in s.tcb && t != s.dispatcher ==> (s.tcb[t].waitingTask == -1 <==> t !in s.rings[SUSPENDED_RING])
  }

  /** Who is among the joiners after a step. */
  lemma JoinersAfter<T>(s: State<T>, a: Action<T>, t: T)
    requires Inv(s) && Legal(s, a)
    ensures t in Next(s, a).rings[SUSPENDED_RING]
            <==> (a.Wait? && Blocks(s, a) && t == s.curr) || (t in s.rings[SUSPENDED_RING] && !(a.Exit? && t in Readied(s, a)))
  {
    RingIsTold(s, a, SUSPENDED_RING);
    if a.Exit? {
      StablePartition(s.rings[SUSPENDED_RING], s.tcb, Exited(s.tcb[s.curr].id));
    }
  }

  lemma JoinersAreJoiners<T>(s: State<T>, a: Action<T>, t: T)
    requires Inv(s) && Legal(s, a)
    ensures a.Exit? && t in Readied(s, a) ==> t in s.rings[SUSPENDED_RING] && t != s.curr
    ensures a.Wait? && Blocks(s, a) ==> s.tcb[a.target].id != -1 && s.curr !in s.rings[SUSPENDED_RING]
  {}

  lemma WaitsStep<T>(s: State<T>, a: Action<T>, t: T)
    requires Inv(s) && Legal(s, a) && WaitsIffJoining(s) && t in Next(s, a).tcb && t != s.dispatcher
    ensures Next(s, a).tcb[t].waitingTask == -1 <==> t !in Next(s, a).rings[SUSPENDED_RING]
  {
    NobodyElseIsNew(s, a, t);
    JoinersAfter(s, a, t);
    JoinersAreJoiners(s, a, t);
    if t in s.tcb {
      RecordIsTold(s, a, t);
    } else {
      NewRecordIsTold(s, t);
    }
  }

  lemma RunWaitsStep<T>(states: seq<State<T>>, actions: seq<Action<T>>, main: T, i: nat)
    requires IsRun(states, actions) && Boots(states[0], main) && i < |actions| && WaitsIffJoining(states[i])
    ensures WaitsIffJoining(states[i + 1])
  {
    RunKeepsInv(states, actions, main, i);
    GlobalsAreTold(states[i], actions[i]);
    var r := states[i + 1];
    forall t | t in r.tcb && t != r.dispatcher
      ensures r.tcb[t].waitingTask == -1 <==> t !in r.rings[SUSPENDED_RING]
    {
      WaitsStep(states[i], actions[i], t);
    }
  }

  lemma {:induction false} RunWaitsIffJoining<T>(states: seq<State<T>>, actions: seq<Action<T>>, main: T, i: nat)
    requires IsRun(states, actions) && Boots(states[0], main) && i < |states|
    ensures WaitsIffJoining(states[i])
    decreases i
  {
    if i > 0 {
      RunWaitsIffJoining(states, actions, main, i - 1);
      RunWaitsStep(states, actions, main, i - 1);
    }
  }

  /**
   * What status means for a user task: TERMINATED exactly when it is in no ring, SUSPENDED
   * whenever it sleeps anywhere, and of the ready tasks only the running one may be RUNNING.
   */
  ghost predicate StatusFits<T>(s: State<T>, t: T)
    requires Shape(s) && t in s.tcb
  {
    var status := s.tcb[t].status;
    && (status == Terminated <==> !Linked(s.rings, t))
    && (Linked(s.rings, t) && t !in s.rings[READY_RING] ==> status == Suspended)
    && (t in s.rings[READY_RING] && t != s.curr ==> status == Ready || status == Suspended)
    && (t == s.curr ==> status == Running || status == Ready)
  }

  ghost predicate StatusesFit<T>(s: State<T>) {
    && Shape(s)
    && forall t :: t in s.tcb && t != s.dispatcher && t != s.driver ==> StatusFits(s, t)
  }

  lemma ReadyAfter<T>(s: State<T>, a: Action<T>, t: T)
    requires Inv(s) && Legal(s, a)
    ensures t in Next(s, a).rings[READY_RING]
            <==> (t in s.rings[READY_RING] && !(t == s.curr && (Blocks(s, a) || a.Exit?))) || t in Readied(s, a)
  {
    RingIsTold(s, a, READY_RING);
    WithoutMembers(s.rings[READY_RING], s.curr, t);
  }

  lemma StatusStep<T>(s: State<T>, a: Action<T>, t: T)
    requires Inv(s) && Legal(s, a) && Inv(Next(s, a)) && t in s.tcb && t != s.dispatcher && t != s.driver && StatusFits(s, t)
    ensures t in Next(s, a).tcb && StatusFits(Next(s, a), t)
  {
    RecordIsTold(s, a, t);
    GlobalsAreTold(s, a);
    ReadyAfter(s, a, t);
    assert Linked(s.rings, t) <==> Live(s, t);
  }

  lemma NewStatusFits<T>(s: State<T>, t: T)
    requires Inv(s) && Legal(s, Init(t)) && Inv(Next(s, Init(t)))
    ensures t in Next(s, Init(t)).tcb && StatusFits(Next(s, Init(t)), t)
  {
    NewRecordIsTold(s, t);
    GlobalsAreTold(s, Init(t));
    ReadyAfter(s, Init(t), t);
  }

  lemma RunStatusStep<T>(states: seq<State<T>>, actions: seq<Action<T>>, main: T, i: nat)
    requires IsRun(states, actions) && Boots(states[0], main) && i < |actions| && StatusesFit(states[i])
    ensures StatusesFit(states[i + 1])
  {
    var s, a, r := states[i], actions[i], states[i + 1];
    RunKeepsInv(states, actions, main, i);
    RunKeepsInv(states, actions, main, i + 1);
    GlobalsAreTold(s, a);
    forall t | t in r.tcb && t != r.dispatcher && t != r.driver
      ensures StatusFits(r, t)
    {
      NobodyElseIsNew(s, a, t);
      if t in s.tcb {
        StatusStep(s, a, t);
      } else {
        NewStatusFits(s, t);
      }
    }
  }

  lemma BootStatuses<T>(s: State<T>, main: T)
    requires Boots(s, main)
    ensures StatusesFit(s)
  {
    BootInv(s, main);
  }

  lemma {:induction false} RunStatusesFit<T>(states: seq<State<T>>, actions: seq<Action<T>>, main: T, i: nat)
    requires IsRun(states, actions) && Boots(states[0], main) && i < |states|
    ensures StatusesFit(states[i])
    decreases i
  {
    if i == 0 {
      BootStatuses(states[0], main);
    } else {
      RunStatusesFit(states, actions, main, i - 1);
      RunStatusStep(states, actions, main, i - 1);
    }
  }
}
