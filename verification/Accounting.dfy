/** The processor time the dispatcher charges to the tasks and to itself, with ticks arriving anywhere. */
module Accounting {

  /**
   * One round of the dispatcher's loop: how many ticks fall between one reading of the clock
   * and the next.  `handover`, `back` and `between` fall where nobody is being charged.
   */
  datatype Round =
    | Idle(search: nat, between: nat)
    | Activation(next: nat, search: nat, handover: nat, run: nat, born: nat, back: nat, tail: nat, between: nat)

  // ---------------------------------------------------------------- the ticks of a script

  function RoundTicks(t: Round): nat {
    match t
    case Idle(search, between) => search + between
    case Activation(_, search, handover, run, _, back, tail, between) => search + handover + run + back + tail + between
  }

  /** Every tick of the script. */
  function Elapsed(rounds: seq<Round>): nat {
    if rounds == [] then 0 else Elapsed(rounds[..|rounds| - 1]) + RoundTicks(rounds[|rounds| - 1])
  }

  /** The ticks during which task i had the processor. */
  function RunTicks(rounds: seq<Round>, i: nat): nat {
    if rounds == [] then 0
    else
      var last := rounds[|rounds| - 1];
      RunTicks(rounds[..|rounds| - 1], i) + (if last.Activation? && last.next == i then last.run else 0)
  }

  /** The ticks during which the dispatcher was choosing, or back in its loop. */
  function OwnTicks(rounds: seq<Round>): nat {
    if rounds == [] then 0
    else
      var last := rounds[|rounds| - 1];
      OwnTicks(rounds[..|rounds| - 1]) + last.search + (if last.Activation? then last.tail else 0)
  }

  /** The ticks between two adjacent clock readings of the dispatcher that charge nobody. */
  function Unclaimed(rounds: seq<Round>): nat {
    if rounds == [] then 0
    else
      var last := rounds[|rounds| - 1];
      Unclaimed(rounds[..|rounds| - 1]) + last.between + (if last.Activation? then last.handover + last.back else 0)
  }

  /** No tick falls between two adjacent readings. */
  predicate Seamless(t: Round) {
    t.between == 0 && (t.Activation? ==> t.handover == 0 && t.back == 0)
  }

  function Tasks(count: nat, rounds: seq<Round>): nat {
    if rounds == [] then count
    else
      var last := rounds[|rounds| - 1];
      Tasks(count, rounds[..|rounds| - 1]) + (if last.Activation? then last.born else 0)
  }

  /** Only tasks that exist are activated. */
  predicate Proper(count: nat, rounds: seq<Round>) {
    rounds == [] ||
    var front, last := rounds[..|rounds| - 1], rounds[|rounds| - 1];
    Proper(count, front) && (last.Activation? ==> last.next < Tasks(count, front))
  }

  function Sum(times: seq<nat>): nat {
    if times == [] then 0 else Sum(times[..|times| - 1]) + times[|times| - 1]
  }

  lemma {:induction false} SumUpdated(times: seq<nat>, i: nat, x: nat)
    requires i < |times|
    ensures Sum(times[i := x]) == Sum(times) - times[i] + x
  {
    var last := |times| - 1;
    if i == last {
      assert times[i := x][..last] == times[..last];
    } else {
      SumUpdated(times[..last], i, x);
      assert times[i := x][..last] == times[..last][i := x];
    }
  }

  lemma {:induction false} SumExtended(times: seq<nat>, n: nat)
    ensures Sum(times + seq(n, _ => 0)) == Sum(times)
  {
    var more := times + seq(n, _ => 0);
    if n == 0 {
      assert more == times;
    } else {
      SumExtended(times, n - 1);
      assert more[..|more| - 1] == times + seq(n - 1, _ => 0);
    }
  }

  /** What every task has been charged after the script. */
  function Times(count: nat, rounds: seq<Round>): (r: seq<nat>)
    ensures |r| == Tasks(count, rounds)
  {
    seq(Tasks(count, rounds), i requires 0 <= i => RunTicks(rounds, i))
  }

  /** The tasks' times after one more round. */
  function Charged(times: seq<nat>, t: Round): seq<nat>
    requires t.Activation? ==> t.next < |times|
  {
    if t.Activation? then times[t.next := times[t.next] + t.run] + seq(t.born, _ => 0) else times
  }

  lemma {:induction false} UnbornUncharged(count: nat, rounds: seq<Round>, i: nat)
    requires Proper(count, rounds) && i >= Tasks(count, rounds)
    ensures RunTicks(rounds, i) == 0
  {
    if rounds != [] {
      UnbornUncharged(count, rounds[..|rounds| - 1], i);
    }
  }

  /** How one more round shows in the tasks' times. */
  lemma TimesNext(count: nat, rounds: seq<Round>)
    requires Proper(count, rounds) && rounds != []
    ensures rounds[|rounds| - 1].Activation? ==> rounds[|rounds| - 1].next < Tasks(count, rounds[..|rounds| - 1])
    ensures Times(count, rounds) == Charged(Times(count, rounds[..|rounds| - 1]), rounds[|rounds| - 1])
  {
    var front, last := rounds[..|rounds| - 1], rounds[|rounds| - 1];
    forall i | |Times(count, front)| <= i < |Times(count, rounds)|
      ensures RunTicks(rounds, i) == 0
    {
      UnbornUncharged(count, front, i);
    }
  }

  /** Every tick is charged once, to the task that ran, to the dispatcher, or to nobody. */
  lemma {:induction false} EveryTickOnce(count: nat, rounds: seq<Round>)
    requires Proper(count, rounds)
    ensures OwnTicks(rounds) + Sum(Times(count, rounds)) + Unclaimed(rounds) == Elapsed(rounds)
  {
    if rounds == [] {
      AllZero(Times(count, rounds));
    } else {
      var front, last := rounds[..|rounds| - 1], rounds[|rounds| - 1];
      EveryTickOnce(count, front);
      TimesNext(count, rounds);
      if last.Activation? {
        var before := Times(count, front);
        SumUpdated(before, last.next, before[last.next] + last.run);
        SumExtended(before[last.next := before[last.next] + last.run], last.born);
      }
    }
  }

  lemma {:induction false} AllZero(times: seq<nat>)
    requires forall i :: 0 <= i < |times| ==> times[i] == 0
    ensures Sum(times) == 0
  {
    if times != [] {
      AllZero(times[..|times| - 1]);
    }
  }

  /** The charges never exceed the time that has passed, and use it up exactly when no tick fell between adjacent readings. */
  lemma ChargesAddUpIff(count: nat, rounds: seq<Round>)
    requires Proper(count, rounds)
    ensures OwnTicks(rounds) + Sum(Times(count, rounds)) <= Elapsed(rounds)
    ensures OwnTicks(rounds) + Sum(Times(count, rounds)) == Elapsed(rounds) <==>
            forall k :: 0 <= k < |rounds| ==> Seamless(rounds[k])
  {
    EveryTickOnce(count, rounds);
    UnclaimedIff(rounds);
  }

  lemma {:induction false} UnclaimedIff(rounds: seq<Round>)
    ensures Unclaimed(rounds) == 0 <==>
            forall k :: 0 <= k < |rounds| ==> Seamless(rounds[k])
  {
    if rounds != [] {
      UnclaimedIff(rounds[..|rounds| - 1]);
    }
  }

  /** The clock, the dispatcher's own time and the tasks' times. */
  datatype Books = Books(clock: nat, own: nat, times: seq<nat>)

  function AfterRound(b: Books, t: Round): Books
    requires t.Activation? ==> t.next < |b.times|
  {
    Books(b.clock + RoundTicks(t), b.own + t.search + (if t.Activation? then t.tail else 0), Charged(b.times, t))
  }

  /** The books of a dispatcher first reached at time start with count tasks, by what each account is owed. */
  function Owed(start: nat, count: nat, rounds: seq<Round>): Books {
    Books(start + Elapsed(rounds), OwnTicks(rounds), Times(count, rounds))
  }

  predicate Covered(start: nat, b: Books) {
    b.own + Sum(b.times) <= b.clock - start
  }

  lemma {:induction false} PrefixProper(count: nat, rounds: seq<Round>, k: nat)
    requires Proper(count, rounds) && k <= |rounds|
    ensures Proper(count, rounds[..k])
  {
    if k == |rounds| {
      assert rounds[..k] == rounds;
    } else {
      PrefixProper(count, rounds[..|rounds| - 1], k);
      assert rounds[..|rounds| - 1][..k] == rounds[..k];
    }
  }

  /** One more round takes the books from what is owed before it to what is owed after it. */
  lemma OwedNext(start: nat, count: nat, rounds: seq<Round>)
    requires Proper(count, rounds) && rounds != []
    ensures var front, last := rounds[..|rounds| - 1], rounds[|rounds| - 1];
            && (last.Activation? ==> last.next < |Owed(start, count, front).times|)
            && AfterRound(Owed(start, count, front), last) == Owed(start, count, rounds)
  {
    TimesNext(count, rounds);
  }

  lemma RoundAdded(start: nat, count: nat, rounds: seq<Round>, k: nat)
    requires Proper(count, rounds) && k < |rounds|
    ensures rounds[k].Activation? ==> rounds[k].next < |Owed(start, count, rounds[..k]).times|
    ensures AfterRound(Owed(start, count, rounds[..k]), rounds[k]) == Owed(start, count, rounds[..k + 1])
  {
    PrefixProper(count, rounds, k + 1);
    assert rounds[..k + 1][..k] == rounds[..k];
    OwedNext(start, count, rounds[..k + 1]);
  }

  /** At every loop head: the charges fit into the time since the dispatcher's first round. */
  lemma AlwaysCovered(start: nat, count: nat, rounds: seq<Round>, k: nat)
    requires Proper(count, rounds) && k <= |rounds|
    ensures Covered(start, Owed(start, count, rounds[..k]))
  {
    PrefixProper(count, rounds, k);
    ChargesAddUpIff(count, rounds[..k]);
  }

  // ---------------------------------------------------------------- the dispatcher's own arithmetic

  /** The clock and the processor_time fields the dispatcher updates. */
  class Clocks {
    var sysclock: nat
    var ownTime: nat
    var times: seq<nat>

    constructor (now: nat, count: nat)
      ensures sysclock == now && ownTime == 0 && times == seq(count, _ => 0)
    {
      sysclock, ownTime, times := now, 0, seq(count, _ => 0);
    }

    /** Ticks of the timer. */
    method Ticks(n: nat)
      modifies this`sysclock
      ensures sysclock == old(sysclock) + n
    {
      sysclock := sysclock + n;
    }

    /** A task runs for some ticks, in which new tasks may be created. */
    method RunTask(ticks: nat, born: nat)
      modifies this`sysclock, this`times
      ensures sysclock == old(sysclock) + ticks && times == old(times) + seq(born, _ => 0)
    {
      sysclock := sysclock + ticks;
      times := times + seq(born, _ => 0);
    }

    ghost function Value(): Books
      reads this
    {
      Books(sysclock, ownTime, times)
    }

    /** One round of the loop: the readings and charges of the source, in its order. */
    method DispatchOnce(t: Round)
      requires t.Activation? ==> t.next < |times|
      modifies this
      ensures Value() == AfterRound(old(Value()), t)
    {
      var dispatcherStart := sysclock;
      Ticks(t.search);
      if t.Activation? {
        ownTime := ownTime + (sysclock - dispatcherStart);
        Ticks(t.handover);
        var taskStart := sysclock;
        RunTask(t.run, t.born);
        times := times[t.next := times[t.next] + (sysclock - taskStart)];
        Ticks(t.back);
        dispatcherStart := sysclock;
        Ticks(t.tail);
      }
      ownTime := ownTime + (sysclock - dispatcherStart);
      Ticks(t.between);
    }

    /** The whole loop, from the dispatcher's first round: at every loop head the books are what is owed. */
    method Dispatch(rounds: seq<Round>)
      requires ownTime == 0 && times == seq(|times|, _ => 0) && Proper(|times|, rounds)
      modifies this
      ensures Value() == Owed(old(sysclock), old(|times|), rounds)
      ensures ownTime + Sum(times) + Unclaimed(rounds) == sysclock - old(sysclock)
    {
      ghost var start, count := sysclock, |times|;
      for k := 0 to |rounds|
        invariant Value() == Owed(start, count, rounds[..k])
      {
        RoundAdded(start, count, rounds, k);
        DispatchOnce(rounds[k]);
      }
      assert rounds[..|rounds|] == rounds;
      EveryTickOnce(count, rounds);
    }
  }
}
