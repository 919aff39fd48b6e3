/**
 * The reusable barrier built from a counter and two POSIX semaphores, as a system of steps:
 * any number of threads call barrier_wait, over and over, in any interleaving.
 */
module Barriers {

  /** Where a thread stands: the next step of barrier_wait it takes. */
  datatype Pc =
    | Outside
    | Locking            // sem_wait(size_s)
    | Arriving           // the counter, guarded by size_s
    | Posting(i: int)    // the last thread's loop, and its sem_post(size_s) after it
    | Unlocking          // the other threads' sem_post(size_s)
    | Waiting            // sem_wait(barrier_s)

  datatype State = State(
    size: int,
    sizeS: nat,          // values of the two semaphores
    barrierS: nat,
    counter: int,
    pcs: seq<Pc>,
    calls: nat,          // how often barrier_wait was called, passed its count, and returned
    arrivals: nat,
    returned: nat,
    groups: nat,         // how often a last thread was found
    posted: nat)         // how many units of barrier_s were handed out

  datatype Step = Call(t: nat) | Go(t: nat)

  function Init(size: int, threads: nat): State {
    State(size, 1, 0, 0, seq(threads, _ => Outside), 0, 0, 0, 0, 0)
  }

  predicate Enabled(s: State, a: Step) {
    && a.t < |s.pcs|
    && match a
       case Call(t) => s.pcs[t] == Outside
       case Go(t) =>
         && s.pcs[t] != Outside
         && (s.pcs[t] == Locking ==> s.sizeS > 0)
         && (s.pcs[t] == Waiting ==> s.barrierS > 0)
  }

  function At(s: State, t: nat, pc: Pc): State
    requires t < |s.pcs|
  {
    s.(pcs := s.pcs[t := pc])
  }

  function Next(s: State, a: Step): State
    requires Enabled(s, a)
  {
    var t := a.t;
    if a.Call? then At(s.(calls := s.calls + 1), t, Locking)
    else
      match s.pcs[t]
      case Locking => At(s.(sizeS := s.sizeS - 1), t, Arriving)
      case Arriving =>
        if s.counter + 1 == s.size
        then At(s.(counter := 0, arrivals := s.arrivals + 1, groups := s.groups + 1), t, Posting(0))
        else At(s.(counter := s.counter + 1, arrivals := s.arrivals + 1), t, Unlocking)
      case Posting(i) =>
        if i < s.size - 1
        then At(s.(barrierS := s.barrierS + 1, posted := s.posted + 1), t, Posting(i + 1))
        else At(s.(sizeS := s.sizeS + 1, returned := s.returned + 1), t, Outside)
      case Unlocking => At(s.(sizeS := s.sizeS + 1), t, Waiting)
      case Waiting => At(s.(barrierS := s.barrierS - 1, returned := s.returned + 1), t, Outside)
  }

  // ---------------------------------------------------------------- adding up over the threads

  function Total(pcs: seq<Pc>, weight: Pc -> int): int {
    if pcs == [] then 0 else Total(pcs[..|pcs| - 1], weight) + weight(pcs[|pcs| - 1])
  }

  lemma {:induction false} TotalMoves(pcs: seq<Pc>, weight: Pc -> int, t: nat, to: Pc)
    requires t < |pcs|
    ensures Total(pcs[t := to], weight) == Total(pcs, weight) - weight(pcs[t]) + weight(to)
  {
    var last := |pcs| - 1;
    if t == last {
      assert pcs[t := to][..last] == pcs[..last];
    } else {
      TotalMoves(pcs[..last], weight, t, to);
      assert pcs[t := to][..last] == pcs[..last][t := to];
    }
  }

  lemma {:induction false} TotalAtLeast(pcs: seq<Pc>, weight: Pc -> int, t: nat)
    requires t < |pcs| && forall pc :: weight(pc) >= 0
    ensures Total(pcs, weight) >= weight(pcs[t]) && Total(pcs, weight) >= 0
  {
    var last := |pcs| - 1;
    if t == last {
      TotalNatural(pcs[..last], weight);
    } else {
      TotalAtLeast(pcs[..last], weight, t);
    }
  }

  lemma {:induction false} TotalNatural(pcs: seq<Pc>, weight: Pc -> int)
    requires forall pc :: weight(pc) >= 0
    ensures Total(pcs, weight) >= 0
  {
    if pcs != [] {
      TotalNatural(pcs[..|pcs| - 1], weight);
    }
  }

  lemma {:induction false} TotalZero(pcs: seq<Pc>, weight: Pc -> int)
    requires forall t :: 0 <= t < |pcs| ==> weight(pcs[t]) == 0
    ensures Total(pcs, weight) == 0
  {
    if pcs != [] {
      TotalZero(pcs[..|pcs| - 1], weight);
    }
  }

  /** One unit for a thread between its sem_wait and its sem_post on size_s. */
  function Lock(pc: Pc): int {
    if pc.Arriving? || pc.Posting? || pc.Unlocking? then 1 else 0
  }

  /** One for a thread that has arrived and still needs a unit of barrier_s. */
  function Needs(pc: Pc): int {
    if pc.Unlocking? || pc.Waiting? then 1 else 0
  }

  /** One for a thread in a call that has not been counted yet. */
  function Early(pc: Pc): int {
    if pc.Locking? || pc.Arriving? then 1 else 0
  }

  function IsLast(pc: Pc): int {
    if pc.Posting? then 1 else 0
  }

  /** The units the last thread of a group has still to hand out. */
  function Owes(size: int): Pc -> int {
    (pc: Pc) => if pc.Posting? then size - 1 - pc.i else 0
  }

  // ---------------------------------------------------------------- the invariant

  /** size_s is a lock: one unit, free or with the thread inside. */
  ghost predicate Locked(s: State) {
    && s.sizeS + Total(s.pcs, Lock) == 1
    && (forall t :: 0 <= t < |s.pcs| && s.pcs[t].Posting? ==> 0 <= s.pcs[t].i <= s.size - 1)
  }

  /** Whole groups and the counter make up the arrivals, whole groups and debts the units posted. */
  ghost predicate Grouped(s: State) {
    && 0 <= s.counter < s.size
    && s.arrivals == s.groups * s.size + s.counter
    && s.posted + Total(s.pcs, Owes(s.size)) == s.groups * (s.size - 1)
  }

  /** Every thread that needs a unit of barrier_s is matched by one posted, owed, or still to be earned. */
  ghost predicate Matched(s: State) {
    s.barrierS + Total(s.pcs, Owes(s.size)) + s.counter == Total(s.pcs, Needs)
  }

  ghost predicate Counted(s: State) {
    && s.calls == s.arrivals + Total(s.pcs, Early)
    && s.arrivals == s.returned + Total(s.pcs, Needs) + Total(s.pcs, IsLast)
  }

  ghost predicate Inv(s: State) {
    s.size >= 1 && Locked(s) && Grouped(s) && Matched(s) && Counted(s)
  }

  lemma InitInv(size: int, threads: nat)
    requires size >= 1
    ensures Inv(Init(size, threads))
  {
    var s := Init(size, threads);
    TotalZero(s.pcs, Lock);
    TotalZero(s.pcs, Owes(size));
    TotalZero(s.pcs, Needs);
    TotalZero(s.pcs, Early);
    TotalZero(s.pcs, IsLast);
  }

  lemma StepKeepsLocked(s: State, a: Step)
    requires s.size >= 1 && Locked(s) && Enabled(s, a)
    ensures Locked(Next(s, a))
  {
    TotalMoves(s.pcs, Lock, a.t, Next(s, a).pcs[a.t]);
  }

  lemma StepKeepsGrouped(s: State, a: Step)
    requires s.size >= 1 && Locked(s) && Grouped(s) && Enabled(s, a)
    ensures Grouped(Next(s, a))
  {
    TotalMoves(s.pcs, Owes(s.size), a.t, Next(s, a).pcs[a.t]);
    if Next(s, a).groups != s.groups {
      OneMore(s.groups, s.size);
      OneMore(s.groups, s.size - 1);
    }
  }

  lemma OneMore(groups: nat, k: int)
    ensures (groups + 1) * k == groups * k + k
  {}

  lemma StepKeepsMatched(s: State, a: Step)
    requires s.size >= 1 && Locked(s) && Grouped(s) && Matched(s) && Enabled(s, a)
    ensures Matched(Next(s, a))
  {
    TotalMoves(s.pcs, Owes(s.size), a.t, Next(s, a).pcs[a.t]);
    TotalMoves(s.pcs, Needs, a.t, Next(s, a).pcs[a.t]);
  }

  lemma StepKeepsCounted(s: State, a: Step)
    requires Counted(s) && Enabled(s, a)
    ensures Counted(Next(s, a))
  {
    TotalMoves(s.pcs, Needs, a.t, Next(s, a).pcs[a.t]);
    TotalMoves(s.pcs, Early, a.t, Next(s, a).pcs[a.t]);
    TotalMoves(s.pcs, IsLast, a.t, Next(s, a).pcs[a.t]);
  }

  lemma StepKeepsInv(s: State, a: Step)
    requires Inv(s) && Enabled(s, a)
    ensures Inv(Next(s, a)) && Next(s, a).size == s.size
  {
    StepKeepsLocked(s, a);
    StepKeepsGrouped(s, a);
    StepKeepsMatched(s, a);
    StepKeepsCounted(s, a);
  }

  // ---------------------------------------------------------------- runs

  ghost predicate IsRun(states: seq<State>, steps: seq<Step>) {
    && |states| == |steps| + 1
    && forall i :: 0 <= i < |steps| ==> Enabled(states[i], steps[i]) && states[i + 1] == Next(states[i], steps[i])
  }

  ghost predicate Starts(s: State) {
    s.size >= 1 && s == Init(s.size, |s.pcs|)
  }

  lemma {:induction false} RunKeepsInv(states: seq<State>, steps: seq<Step>, i: nat)
    requires IsRun(states, steps) && Starts(states[0]) && i < |states|
    ensures Inv(states[i]) && states[i].size == states[0].size
  {
    if i == 0 {
      InitInv(states[0].size, |states[0].pcs|);
    } else {
      RunKeepsInv(states, steps, i - 1);
      StepKeepsInv(states[i - 1], steps[i - 1]);
    }
  }

  lemma Divided(arrivals: nat, groups: nat, size: int, counter: int)
    requires size >= 1 && 0 <= counter < size && arrivals == groups * size + counter
    ensures arrivals / size == groups && arrivals % size == counter
  {
    assert arrivals == size * (arrivals / size) + arrivals % size;
    var off := arrivals / size - groups;
    assert size * off == counter - arrivals % size;
    assert off >= 1 ==> size * off >= size;
    assert off <= -1 ==> size * off <= -size;
  }

  /** The counter counts the arrivals of the unfinished group, the posted units those of the finished ones. */
  lemma CountsAddUp(states: seq<State>, steps: seq<Step>, i: nat)
    requires IsRun(states, steps) && Starts(states[0]) && i < |states|
    ensures var s, size := states[i], states[0].size;
            && s.size == size
            && s.counter == s.arrivals % size
            && s.posted <= (size - 1) * (s.arrivals / size)
            && (Total(s.pcs, IsLast) == 0 ==> s.posted == (size - 1) * (s.arrivals / size))
            && s.returned <= size * (s.arrivals / size)
  {
    RunKeepsInv(states, steps, i);
    var s := states[i];
    Divided(s.arrivals, s.groups, s.size, s.counter);
    OwesBounds(s);
    NeedsBounds(s);
  }

  lemma {:induction false} OwesNatural(pcs: seq<Pc>, size: int)
    requires forall t :: 0 <= t < |pcs| && pcs[t].Posting? ==> 0 <= pcs[t].i <= size - 1
    ensures Total(pcs, Owes(size)) >= 0
    ensures Total(pcs, IsLast) == 0 ==> Total(pcs, Owes(size)) == 0
    ensures Total(pcs, IsLast) >= 0
  {
    if pcs != [] {
      OwesNatural(pcs[..|pcs| - 1], size);
    }
  }

  lemma OwesBounds(s: State)
    requires Locked(s)
    ensures Total(s.pcs, Owes(s.size)) >= 0
    ensures Total(s.pcs, IsLast) == 0 ==> Total(s.pcs, Owes(s.size)) == 0
  {
    OwesNatural(s.pcs, s.size);
  }

  lemma NeedsBounds(s: State)
    requires Inv(s)
    ensures s.returned <= s.groups * s.size
  {
    OwesNatural(s.pcs, s.size);
  }

  /** Nobody leaves the barrier before as many threads as it is for have arrived. */
  lemma NobodyLeavesEarly(states: seq<State>, steps: seq<Step>, i: nat)
    requires IsRun(states, steps) && Starts(states[0]) && i < |states| && states[i].arrivals < states[i].size
    ensures states[i].returned == 0
  {
    RunKeepsInv(states, steps, i);
    CountsAddUp(states, steps, i);
    var s := states[i];
    assert s.arrivals / s.size == 0;
  }

  /** Between groups, there is a unit of barrier_s for every thread that waits for one. */
  lemma WholeGroupsPass(states: seq<State>, steps: seq<Step>, i: nat)
    requires IsRun(states, steps) && Starts(states[0]) && i < |states|
    requires states[i].counter == 0 && states[i].sizeS == 1
    ensures states[i].barrierS == Total(states[i].pcs, Needs)
  {
    RunKeepsInv(states, steps, i);
    var s := states[i];
    NobodyInside(s);
    TotalZero(s.pcs, Owes(s.size));
  }

  lemma NobodyInside(s: State)
    requires Locked(s) && s.sizeS == 1
    ensures forall t :: 0 <= t < |s.pcs| ==> Lock(s.pcs[t]) == 0
  {
    forall t | 0 <= t < |s.pcs|
      ensures Lock(s.pcs[t]) == 0
    {
      TotalAtLeast(s.pcs, Lock, t);
    }
  }

  // ---------------------------------------------------------------- progress

  /** No thread that is in a call can take its next step. */
  ghost predicate Stuck(s: State) {
    forall t :: 0 <= t < |s.pcs| ==> !Enabled(s, Go(t))
  }

  lemma StuckThreads(s: State)
    requires Locked(s) && Stuck(s)
    ensures s.sizeS == 1
    ensures forall t :: 0 <= t < |s.pcs| ==> s.pcs[t] == Outside || s.pcs[t] == Waiting
  {
    if s.sizeS != 1 {
      forall t | 0 <= t < |s.pcs|
        ensures Lock(s.pcs[t]) == 0
      {
        assert !Enabled(s, Go(t));
      }
      TotalZero(s.pcs, Lock);
    }
    NobodyInside(s);
    forall t | 0 <= t < |s.pcs|
      ensures s.pcs[t] == Outside || s.pcs[t] == Waiting
    {
      assert !Enabled(s, Go(t)) && Lock(s.pcs[t]) == 0;
    }
  }

  /** Threads get stuck only at the barrier, and only the members of an unfinished group. */
  lemma OnlyTheUnfinishedWait(s: State)
    requires Inv(s) && Stuck(s)
    ensures s.barrierS == 0 && Total(s.pcs, Needs) == s.counter
    ensures s.returned == s.groups * s.size && s.calls == s.arrivals
  {
    StuckThreads(s);
    TotalZero(s.pcs, Owes(s.size));
    TotalZero(s.pcs, Early);
    TotalZero(s.pcs, IsLast);
    if s.barrierS > 0 {
      forall t | 0 <= t < |s.pcs|
        ensures Needs(s.pcs[t]) == 0
      {
        assert !Enabled(s, Go(t));
      }
      TotalZero(s.pcs, Needs);
    }
  }

  /** When no call can go on, all have returned exactly if the number of calls is a multiple of the barrier's size. */
  lemma AllReturnIff(s: State)
    requires Inv(s) && Stuck(s)
    ensures s.size >= 1
    ensures (forall t :: 0 <= t < |s.pcs| ==> s.pcs[t] == Outside) <==> s.calls % s.size == 0
  {
    OnlyTheUnfinishedWait(s);
    Divided(s.arrivals, s.groups, s.size, s.counter);
    StuckThreads(s);
    if forall t :: 0 <= t < |s.pcs| ==> s.pcs[t] == Outside {
      TotalZero(s.pcs, Needs);
    } else {
      var t :| 0 <= t < |s.pcs| && s.pcs[t] != Outside;
      TotalAtLeast(s.pcs, Needs, t);
    }
  }

  // ---------------------------------------------------------------- a barrier for nobody

  /** With a size below one no arrival is ever the last. */
  ghost predicate Closed(s: State) {
    && s.size < 1 && Locked(s) && Counted(s)
    && s.counter == s.arrivals && s.groups == 0 && s.posted == 0 && s.barrierS == 0 && s.returned == 0
    && (forall t :: 0 <= t < |s.pcs| ==> !s.pcs[t].Posting?)
  }

  lemma InitClosed(size: int, threads: nat)
    requires size < 1
    ensures Closed(Init(size, threads))
  {
    var s := Init(size, threads);
    TotalZero(s.pcs, Lock);
    TotalZero(s.pcs, Needs);
    TotalZero(s.pcs, Early);
    TotalZero(s.pcs, IsLast);
  }

  lemma StepKeepsClosed(s: State, a: Step)
    requires Closed(s) && Enabled(s, a)
    ensures Closed(Next(s, a)) && Next(s, a).size == s.size
  {
    TotalMoves(s.pcs, Lock, a.t, Next(s, a).pcs[a.t]);
    StepKeepsCounted(s, a);
  }

  lemma ClosedReturnIff(s: State)
    requires Closed(s) && Stuck(s)
    ensures (forall t :: 0 <= t < |s.pcs| ==> s.pcs[t] == Outside) <==> s.calls == 0
  {
    StuckThreads(s);
    TotalZero(s.pcs, Early);
    TotalZero(s.pcs, IsLast);
    if forall t :: 0 <= t < |s.pcs| ==> s.pcs[t] == Outside {
      TotalZero(s.pcs, Needs);
    } else {
      var t :| 0 <= t < |s.pcs| && s.pcs[t] != Outside;
      TotalAtLeast(s.pcs, Needs, t);
    }
  }

  lemma {:induction false} ClosedRun(states: seq<State>, steps: seq<Step>, i: nat)
    requires IsRun(states, steps) && states[0] == Init(states[0].size, |states[0].pcs|) && states[0].size < 1
    requires i < |states|
    ensures Closed(states[i]) && states[i].size == states[0].size
  {
    if i == 0 {
      InitClosed(states[0].size, |states[0].pcs|);
    } else {
      ClosedRun(states, steps, i - 1);
      StepKeepsClosed(states[i - 1], steps[i - 1]);
    }
  }

  /**
   * For a barrier of any size: when no call can go on, all have returned exactly if the number
   * of calls is a multiple of the size, and with a size below one exactly if nobody has called.
   */
  lemma AllReturnIffAnySize(states: seq<State>, steps: seq<Step>, i: nat)
    requires IsRun(states, steps) && states[0] == Init(states[0].size, |states[0].pcs|)
    requires i < |states| && Stuck(states[i])
    ensures (forall t :: 0 <= t < |states[i].pcs| ==> states[i].pcs[t] == Outside)
            <==> if states[0].size >= 1 then states[i].calls % states[0].size == 0 else states[i].calls == 0
  {
    if states[0].size >= 1 {
      RunKeepsInv(states, steps, i);
      AllReturnIff(states[i]);
    } else {
      ClosedRun(states, steps, i);
      ClosedReturnIff(states[i]);
    }
  }

  // ---------------------------------------------------------------- how long calls take

  /** The steps a call can still take. */
  function Remaining(size: int): Pc -> int {
    (pc: Pc) =>
      match pc
      case Outside => 0
      case Locking => size + 4
      case Arriving => size + 3
      case Posting(i) => size - i
      case Unlocking => 2
      case Waiting => 1
  }

  lemma RemainingNatural(s: State)
    requires Inv(s)
    ensures Total(s.pcs, Remaining(s.size)) >= 0
  {
    RemainingOf(s.pcs, s.size);
  }

  lemma {:induction false} RemainingOf(pcs: seq<Pc>, size: int)
    requires size >= 1 && forall t :: 0 <= t < |pcs| && pcs[t].Posting? ==> 0 <= pcs[t].i <= size - 1
    ensures Total(pcs, Remaining(size)) >= 0
  {
    if pcs != [] {
      RemainingOf(pcs[..|pcs| - 1], size);
    }
  }

  /** If nobody calls again, the calls under way come to an end: all together take at most this many steps. */
  lemma {:induction false} CallsEnd(states: seq<State>, steps: seq<Step>, i: nat)
    requires IsRun(states, steps) && Inv(states[0]) && forall j :: 0 <= j < |steps| ==> steps[j].Go?
    requires i < |states|
    ensures Inv(states[i]) && states[i].size == states[0].size && states[i].calls == states[0].calls
    ensures 0 <= Total(states[i].pcs, Remaining(states[0].size)) <= Total(states[0].pcs, Remaining(states[0].size)) - i
  {
    if i == 0 {
      RemainingNatural(states[0]);
    } else {
      CallsEnd(states, steps, i - 1);
      var s, a := states[i - 1], steps[i - 1];
      StepKeepsInv(s, a);
      TotalMoves(s.pcs, Remaining(s.size), a.t, states[i].pcs[a.t]);
      RemainingNatural(states[i]);
    }
  }

  // ---------------------------------------------------------------- the barrier in place

  /** The barrier's record, with the threads' places in barrier_wait. */
  class Barrier {
    var sizeS: nat
    var size: int
    var counter: int
    var barrierS: nat
    var pcs: seq<Pc>

    ghost var model: State

    ghost predicate Valid()
      reads this
    {
      && model.sizeS == sizeS && model.size == size && model.counter == counter
      && model.barrierS == barrierS && model.pcs == pcs
    }

    /** barrier_init. */
    constructor (size: int, threads: nat)
      ensures Valid() && model == Init(size, threads)
    {
      sizeS, barrierS, this.size, counter := 1, 0, size, 0;
      pcs := seq(threads, _ => Outside);
      model := Init(size, threads);
    }

    method Call(t: nat)
      requires Valid() && Enabled(model, Step.Call(t))
      modifies this
      ensures Valid() && model == Next(old(model), Step.Call(t))
      ensures Inv(old(model)) ==> Inv(model)
    {
      if Inv(model) {
        StepKeepsInv(model, Step.Call(t));
      }
      model := Next(model, Step.Call(t));
      pcs := pcs[t := Locking];
    }

    /** One thread's next step in barrier_wait. */
    method Go(t: nat)
      requires Valid() && Enabled(model, Step.Go(t))
      modifies this
      ensures Valid() && model == Next(old(model), Step.Go(t))
      ensures Inv(old(model)) ==> Inv(model)
    {
      if Inv(model) {
        StepKeepsInv(model, Step.Go(t));
      }
      model := Next(model, Step.Go(t));
      match pcs[t]
      case Locking =>
        sizeS, pcs := sizeS - 1, pcs[t := Arriving];
      case Arriving =>
        counter := counter + 1;
        var isLast := counter == size;
        if isLast {
          counter, pcs := 0, pcs[t := Posting(0)];
        } else {
          pcs := pcs[t := Unlocking];
        }
      case Posting(i) =>
        if i < size - 1 {
          barrierS, pcs := barrierS + 1, pcs[t := Posting(i + 1)];
        } else {
          sizeS, pcs := sizeS + 1, pcs[t := Outside];
        }
      case Unlocking =>
        sizeS, pcs := sizeS + 1, pcs[t := Waiting];
      case Waiting =>
        barrierS, pcs := barrierS - 1, pcs[t := Outside];
    }
  }
}
