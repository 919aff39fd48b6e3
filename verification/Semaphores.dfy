/** Counting semaphores as plain values, and their laws over every sequence of calls. */
module Semaphores {

  datatype Semaphore<T> = Semaphore(value: int, active: bool, queue: seq<T>)

  /** One call: sem_down by a task, sem_up, or sem_destroy. */
  datatype Call<T> = Down(t: T) | Up | Destroy

  function Init<T>(value: int): Semaphore<T> {
    Semaphore(value, true, [])
  }

  function Apply<T>(s: Semaphore<T>, c: Call<T>): Semaphore<T> {
    if !s.active then s
    else
      match c
      case Down(t) => s.(value := s.value - 1, queue := if s.value - 1 < 0 then s.queue + [t] else s.queue)
      case Up => s.(value := s.value + 1, queue := if s.value + 1 <= 0 && s.queue != [] then s.queue[1..] else s.queue)
      case Destroy => s.(active := false, queue := [])
  }

  /** The tasks a call puts to sleep. */
  function Blocks<T>(s: Semaphore<T>, c: Call<T>): seq<T> {
    if s.active && c.Down? && s.value - 1 < 0 then [c.t] else []
  }

  /** The tasks a call makes ready, in that order. */
  function Releases<T>(s: Semaphore<T>, c: Call<T>): seq<T> {
    if !s.active then []
    else
      match c
      case Down(_) => []
      case Up => if s.value + 1 <= 0 && s.queue != [] then s.queue[..1] else []
      case Destroy => s.queue
  }

  // ---------------------------------------------------------------- histories

  function After<T>(s: Semaphore<T>, calls: seq<Call<T>>): Semaphore<T> {
    if calls == [] then s else Apply(After(s, calls[..|calls| - 1]), calls[|calls| - 1])
  }

  function Blocked<T>(s: Semaphore<T>, calls: seq<Call<T>>): seq<T> {
    if calls == [] then []
    else
      var front := calls[..|calls| - 1];
      Blocked(s, front) + Blocks(After(s, front), calls[|calls| - 1])
  }

  function Released<T>(s: Semaphore<T>, calls: seq<Call<T>>): seq<T> {
    if calls == [] then []
    else
      var front := calls[..|calls| - 1];
      Released(s, front) + Releases(After(s, front), calls[|calls| - 1])
  }

  function Downs<T>(calls: seq<Call<T>>): nat {
    if calls == [] then 0 else Downs(calls[..|calls| - 1]) + (if calls[|calls| - 1].Down? then 1 else 0)
  }

  function Ups<T>(calls: seq<Call<T>>): nat {
    if calls == [] then 0 else Ups(calls[..|calls| - 1]) + (if calls[|calls| - 1].Up? then 1 else 0)
  }

  predicate Lasting<T>(calls: seq<Call<T>>) {
    forall i :: 0 <= i < |calls| ==> !calls[i].Destroy?
  }

  function Debt(value: int): nat {
    if value < 0 then -value else 0
  }

  /** While nobody destroys it: the value counts the calls, and the queue is exactly the debt. */
  lemma {:induction false} ValueLaw<T>(v0: nat, calls: seq<Call<T>>)
    requires Lasting(calls)
    ensures var s := After(Init(v0), calls);
            && s.active
            && s.value == v0 + Ups(calls) - Downs(calls)
            && |s.queue| == Debt(s.value)
  {
    if calls != [] {
      ValueLaw(v0, calls[..|calls| - 1]);
    }
  }

  /** The queue is the debt after every history exactly when the initial value is not negative. */
  lemma QueueIsDebtIff<T>(v0: int)
    ensures (forall calls: seq<Call<T>> :: Lasting(calls) ==>
               |After(Init(v0), calls).queue| == Debt(After(Init(v0), calls).value)) <==> v0 >= 0
  {
    if v0 >= 0 {
      forall calls: seq<Call<T>> | Lasting(calls)
        ensures |After(Init(v0), calls).queue| == Debt(After(Init(v0), calls).value)
      {
        ValueLaw(v0, calls);
      }
    } else {
      var none: seq<Call<T>> := [];
      assert Lasting(none) && After(Init(v0), none) == Init(v0);
    }
  }

  /** Sleepers are released in the order they blocked, by sem_up and by sem_destroy alike. */
  lemma {:induction false} FirstInFirstOut<T>(v0: int, calls: seq<Call<T>>)
    ensures Blocked(Init(v0), calls) == Released(Init(v0), calls) + After(Init(v0), calls).queue
  {
    if calls != [] {
      var front := calls[..|calls| - 1];
      FirstInFirstOut(v0, front);
      var s, last := After(Init(v0), front), calls[|calls| - 1];
      var out := Released(Init(v0), front);
      match last
      case Down(t) => assert out + s.queue + [t] == out + [] + (s.queue + [t]);
      case Up =>
        if s.queue != [] {
          assert out + s.queue == out + s.queue[..1] + s.queue[1..];
        }
      case Destroy => assert out + s.queue == out + s.queue + [];
    }
  }

  /** The downs that got through: those that never slept, and those released since. */
  function Passed<T>(v0: int, calls: seq<Call<T>>): int {
    Downs(calls) - |Blocked(Init(v0), calls)| + |Released(Init(v0), calls)|
  }

  /** Never more downs get through than there were units, and none is held back while units remain. */
  lemma UnitsBoundPassage<T>(v0: nat, calls: seq<Call<T>>)
    requires Lasting(calls)
    ensures Passed(v0, calls) <= v0 + Ups(calls)
    ensures Passed(v0, calls) == Downs(calls) || Passed(v0, calls) == v0 + Ups(calls)
  {
    ValueLaw(v0, calls);
    FirstInFirstOut(v0, calls);
  }

  /** A destroyed semaphore has no sleepers and stays that way: no later call blocks or releases anybody. */
  lemma {:induction false} DestroyedForGood<T>(s: Semaphore<T>, calls: seq<Call<T>>)
    requires !s.active && s.queue == []
    ensures After(s, calls) == s && Blocked(s, calls) == [] && Released(s, calls) == []
  {
    if calls != [] {
      DestroyedForGood(s, calls[..|calls| - 1]);
    }
  }

  lemma {:induction false} AfterSplit<T>(s: Semaphore<T>, a: seq<Call<T>>, b: seq<Call<T>>)
    ensures After(s, a + b) == After(After(s, a), b)
  {
    if b == [] {
      assert a + b == a;
    } else {
      var n := |b| - 1;
      assert (a + b)[..|a + b| - 1] == a + b[..n];
      AfterSplit(s, a, b[..n]);
    }
  }

  /** Everybody asleep at sem_destroy is released by it, in blocking order, and nobody sleeps there again. */
  lemma DestroyFreesAll<T>(v0: int, before: seq<Call<T>>, later: seq<Call<T>>)
    requires Lasting(before)
    ensures var all := before + [Destroy] + later;
            && Releases(After(Init(v0), before), Destroy) == After(Init(v0), before).queue
            && After(Init(v0), all).queue == [] && !After(Init(v0), all).active
            && Released(Init(v0), all) == Blocked(Init(v0), all)
  {
    StaysActive(v0, before);
    var upTo := before + [Destroy];
    assert upTo[..|upTo| - 1] == before;
    AfterSplit(Init(v0), upTo, later);
    DestroyedForGood(After(Init(v0), upTo), later);
    FirstInFirstOut(v0, upTo + later);
  }

  /**
   * sem_down reports success also to those whom sem_destroy let go.  Then more downs have got
   * through than there were units, unless nobody was asleep.
   */
  lemma DestroyOverpaysIff<T>(v0: nat, before: seq<Call<T>>)
    requires Lasting(before)
    ensures Passed(v0, before + [Destroy]) <= v0 + Ups(before) <==> After(Init(v0), before).queue == []
    ensures Passed(v0, before + [Destroy]) == Downs(before)
  {
    StaysActive(v0, before);
    var all := before + [Destroy];
    assert all[..|all| - 1] == before;
    FirstInFirstOut(v0, before);
    ValueLaw(v0, before);
  }

  lemma {:induction false} StaysActive<T>(v0: int, calls: seq<Call<T>>)
    requires Lasting(calls)
    ensures After(Init(v0), calls).active
  {
    if calls != [] {
      StaysActive(v0, calls[..|calls| - 1]);
    }
  }
}
