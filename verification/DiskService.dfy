/** The aging scheduler and the disk driver together: a driver with work to do soon gets its turn. */
module DiskService {
  import opened KernelSpec
  import K = KernelRuns
  import opened Fairness
  import opened KernelDisk

  /** The bounds of Fairness, for a move of kernel and manager. */
  ghost predicate MoveWithinBounds<T, B>(m: Machine<T, B>, a: Move<T, B>, L: int, N: nat) {
    && L <= DEFAULT_PRIORITY && N >= 1
    && (a.Call? ==> WithinBounds(m.kernel, a.a, L, N))
  }

  lemma ResumeKeepsFair<T>(s: State<T>, t: T, L: int, N: nat)
    requires DriverPlaced(s) && Fair(s, L, N) && t in s.tcb && (t == s.driver || t in s.rings[DISK_RING])
    ensures Fair(TaskResume(s, t, DISK_RING), L, N)
  {
    OtherStepKeepsFair(s, K.DiskResume(t), L, N);
  }

  lemma SuspendKeepsFair<T>(s: State<T>, L: int, N: nat)
    requires DriverPlaced(s) && Fair(s, L, N) && s.curr != s.dispatcher
    ensures Fair(TaskSuspend(s, DISK_RING), L, N)
  {
    OtherStepKeepsFair(s, K.DiskSuspend, L, N);
  }

  lemma MoveKeepsFair<T, B>(m: Machine<T, B>, a: Move<T, B>, L: int, N: nat)
    requires DriverPlaced(m.kernel) && Legal(m, a) && Fair(m.kernel, L, N) && MoveWithinBounds(m, a, L, N)
    ensures Fair(Next(m, a).kernel, L, N)
  {
    var s := m.kernel;
    match a
    case Call(c) => StepKeepsFair(s, c, L, N);
    case BlockOp(_, _, _) =>
      if Marked(s) {
        DriverReadied(s);
        ResumeKeepsFair(s, s.driver, L, N);
        SuspendKeepsFair(TaskResume(s, s.driver, DISK_RING), L, N);
      } else {
        SuspendKeepsFair(s, L, N);
      }
    case DriverTurn =>
      FirstResumedView(s, m.io.signal);
      if m.io.signal && s.rings[DISK_RING] != [] {
        ResumeKeepsFair(s, s.rings[DISK_RING][0], L, N);
      }
      SuspendKeepsFair(FirstResumed(s, m.io.signal), L, N);
    case Completion => ResumeKeepsFair(s, s.driver, L, N);
    case Store(_, _) =>
  }

  ghost function Urgency<T>(s: State<T>): int {
    if s.driver in s.tcb then s.tcb[s.driver].dynamicPriority else 0
  }

  /** A call of the scheduler that makes its choice among the ready tasks. */
  predicate Chooses<T, B>(a: Move<T, B>) {
    a.Call? && a.a.Schedule?
  }

  /** The driver stays ready without getting the processor or another priority. */
  ghost predicate Overlooked<T, B>(m: Machine<T, B>, a: Move<T, B>, r: Machine<T, B>) {
    && Awake(m.kernel) && Awake(r.kernel) && !a.DriverTurn?
    && (a.Call? && a.a.Prio? ==> a.a.t != m.kernel.driver)
    && (Chooses(a) ==> r.kernel.curr != m.kernel.driver)
  }

  lemma ResumeKeepsUrgency<T>(s: State<T>)
    requires DriverPlaced(s) && Awake(s)
    ensures Urgency(TaskResume(s, s.driver, DISK_RING)) == Urgency(s)
  {
    StepAges(s, K.DiskResume(s.driver), s.driver);
  }

  lemma OverlookedAges<T, B>(m: Machine<T, B>, a: Move<T, B>)
    requires DriverPlaced(m.kernel) && Legal(m, a) && Overlooked(m, a, Next(m, a))
    ensures Urgency(Next(m, a).kernel) == Urgency(m.kernel) + (if Chooses(a) then ALPHA else 0)
  {
    var s := m.kernel;
    match a
    case Call(c) =>
      MoveIsStep(m, a);
      StepAges(s, c, s.driver);
    case BlockOp(_, _, _) =>
      ResumeKeepsUrgency(s);
      if Marked(s) {
        DriverReadied(s);
        StepAges(TaskResume(s, s.driver, DISK_RING), K.DiskSuspend, s.driver);
      } else {
        StepAges(s, K.DiskSuspend, s.driver);
      }
    case Completion => ResumeKeepsUrgency(s);
    case Store(_, _) =>
  }

  // ---------------------------------------------------------------- runs

  lemma RunMoveIsFair<T, B>(machines: seq<Machine<T, B>>, moves: seq<Move<T, B>>, L: int, N: nat, i: nat)
    requires IsLooseRun(machines, moves) && i < |moves| && MoveWithinBounds(machines[i], moves[i], L, N)
    requires DriverPlaced(machines[i].kernel) && Fair(machines[i].kernel, L, N)
    ensures DriverPlaced(machines[i + 1].kernel) && Fair(machines[i + 1].kernel, L, N)
  {
    MoveIsStep(machines[i], moves[i]);
    MoveKeepsFair(machines[i], moves[i], L, N);
  }

  /** A run of kernel and manager, any requests, that keeps the bounds, from a fair state on. */
  ghost predicate IsFairRun<T, B>(machines: seq<Machine<T, B>>, moves: seq<Move<T, B>>, L: int, N: nat) {
    && IsLooseRun(machines, moves)
    && DriverPlaced(machines[0].kernel) && Fair(machines[0].kernel, L, N)
    && (forall i :: 0 <= i < |moves| ==> MoveWithinBounds(machines[i], moves[i], L, N))
  }

  /** Such a run can start wherever a bounded run of the kernel calls disk_mgr_init. */
  lemma MgrInitIsFair<T>(states: seq<State<T>>, actions: seq<K.Action<T>>, main: T, L: int, N: nat, i: nat)
    requires K.IsRun(states, actions) && K.Boots(states[0], main) && Bounded(states, actions, L, N) && i < |states|
    requires Shape(states[i]) && states[i].curr != states[i].dispatcher && states[i].driver !in states[i].tcb
    ensures var r := TaskInit(states[i], states[i].driver); DriverPlaced(r) && Fair(r, L, N)
  {
    var s := states[i];
    RunIsFair(states, actions, main, L, N, i);
    StepKeepsFair(s, K.Init(s.driver), L, N);
    assert !Linked(s.rings, s.driver);
  }

  lemma {:induction false} FairRunIsFair<T, B>(machines: seq<Machine<T, B>>, moves: seq<Move<T, B>>, L: int, N: nat, i: nat)
    requires IsFairRun(machines, moves, L, N) && i < |machines|
    ensures DriverPlaced(machines[i].kernel) && Fair(machines[i].kernel, L, N)
    decreases i
  {
    if i > 0 {
      FairRunIsFair(machines, moves, L, N, i - 1);
      RunMoveIsFair(machines, moves, L, N, i - 1);
    }
  }

  function Choices<T, B>(moves: seq<Move<T, B>>, i: nat, j: nat): nat
    requires i <= j <= |moves|
  {
    if i == j then 0 else Choices(moves, i, j - 1) + (if Chooses(moves[j - 1]) then 1 else 0)
  }

  ghost predicate OverlookedBetween<T, B>(machines: seq<Machine<T, B>>, moves: seq<Move<T, B>>, i: nat, j: nat) {
    && i <= j <= |moves| < |machines|
    && forall k :: i <= k < j ==> Overlooked(machines[k], moves[k], machines[k + 1])
  }

  ghost predicate AgesBetween<T, B>(machines: seq<Machine<T, B>>, moves: seq<Move<T, B>>, i: nat, j: nat) {
    && i <= j <= |moves| < |machines|
    && forall k :: i <= k < j ==>
         Urgency(machines[k + 1].kernel) == Urgency(machines[k].kernel) + (if Chooses(moves[k]) then ALPHA else 0)
  }

  lemma {:induction false} AgesAddUp<T, B>(machines: seq<Machine<T, B>>, moves: seq<Move<T, B>>, i: nat, j: nat)
    requires AgesBetween(machines, moves, i, j)
    ensures Urgency(machines[j].kernel) == Urgency(machines[i].kernel) - Choices(moves, i, j)
    decreases j
  {
    if i < j {
      AgesAddUp(machines, moves, i, j - 1);
      var k := j - 1;
      assert Urgency(machines[k + 1].kernel) == Urgency(machines[k].kernel) + (if Chooses(moves[k]) then ALPHA else 0);
    }
  }

  lemma RunMoveAges<T, B>(machines: seq<Machine<T, B>>, moves: seq<Move<T, B>>, L: int, N: nat, k: nat)
    requires IsFairRun(machines, moves, L, N) && k < |moves| && Overlooked(machines[k], moves[k], machines[k + 1])
    ensures Urgency(machines[k + 1].kernel) == Urgency(machines[k].kernel) + (if Chooses(moves[k]) then ALPHA else 0)
  {
    FairRunIsFair(machines, moves, L, N, k);
    OverlookedAges(machines[k], moves[k]);
  }

  lemma OverlookedRunAges<T, B>(machines: seq<Machine<T, B>>, moves: seq<Move<T, B>>, L: int, N: nat, i: nat, j: nat)
    requires IsFairRun(machines, moves, L, N) && OverlookedBetween(machines, moves, i, j)
    ensures AgesBetween(machines, moves, i, j)
  {
    forall k | i <= k < j
      ensures Urgency(machines[k + 1].kernel) == Urgency(machines[k].kernel) + (if Chooses(moves[k]) then ALPHA else 0)
    {
      RunMoveAges(machines, moves, L, N, k);
    }
  }

  lemma UrgencyFloor<T, B>(machines: seq<Machine<T, B>>, moves: seq<Move<T, B>>, L: int, N: nat, j: nat)
    requires IsFairRun(machines, moves, L, N) && N >= 1 && j < |machines| && Awake(machines[j].kernel)
    ensures Urgency(machines[j].kernel) >= L - N + 1
  {
    FairRunIsFair(machines, moves, L, N, j);
    FairFloor(machines[j].kernel, L, N, machines[j].kernel.driver);
  }

  /**
   * A ready driver of priority d runs within d - L + N scheduler calls.  With KernelDisk's
   * bound on the turns it needs, no client waits for want of the processor.
   */
  lemma DriverGetsItsTurn<T, B>(machines: seq<Machine<T, B>>, moves: seq<Move<T, B>>, L: int, N: nat, i: nat, j: nat)
    requires IsFairRun(machines, moves, L, N) && N >= 1 && OverlookedBetween(machines, moves, i, j) && i < j
    ensures Choices(moves, i, j) <= Urgency(machines[i].kernel) - L + N - 1
  {
    OverlookedRunAges(machines, moves, L, N, i, j);
    AgesAddUp(machines, moves, i, j);
    var last := j - 1;
    assert Overlooked(machines[last], moves[last], machines[last + 1]);
    UrgencyFloor(machines, moves, L, N, j);
  }
}
