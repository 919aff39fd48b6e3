/** What moving tasks between rings keeps, and what the waking traversals compute. */
module KernelRings {
  import opened Sequences
  import opened KernelSpec

  /** No ring holds a task twice and no two rings share one. */
  ghost predicate Partition<T>(rings: seq<seq<T>>) {
    && (forall r :: 0 <= r < |rings| ==> NoDuplicates(rings[r]))
    && (forall r, q, t :: 0 <= r < |rings| && 0 <= q < |rings| && t in rings[r] && t in rings[q] ==> r == q)
  }

  ghost function TotalSize<T>(rings: seq<seq<T>>): nat {
    if rings == [] then 0 else TotalSize(rings[..|rings| - 1]) + |rings[|rings| - 1]|
  }

  lemma {:induction false} EmptyRings<T>(rings: seq<seq<T>>)
    requires forall r :: 0 <= r < |rings| ==> rings[r] == []
    ensures TotalSize(rings) == 0
  {
    if rings != [] {
      EmptyRings(rings[..|rings| - 1]);
    }
  }

  lemma {:induction false} TotalSizeUpdate<T>(rings: seq<seq<T>>, r: nat, ring: seq<T>)
    requires r < |rings|
    ensures TotalSize(rings[r := ring]) == TotalSize(rings) - |rings[r]| + |ring|
  {
    var last := |rings| - 1;
    if r == last {
      assert rings[r := ring][..last] == rings[..last];
    } else {
      TotalSizeUpdate(rings[..last], r, ring);
      assert rings[r := ring][..last] == rings[..last][r := ring];
    }
  }

  /** A linked task that is not in `from` stays where it is; one that is in `from` goes to the tail of `to`. */
  lemma MoveOut<T>(rings: seq<seq<T>>, from: nat, to: nat, t: T)
    requires Partition(rings) && from < |rings| && to < |rings| && from != to
    requires Linked(rings, t)
    ensures Move(rings, from, to, t) ==
            if t in rings[from] then rings[from := Without(rings[from], t)][to := rings[to] + [t]] else rings
  {
    if t in rings[from] {
      var mid := RemoveFrom(rings, from, t);
      WithoutMembers(rings[from], t, t);
      assert !Linked(mid, t);
    } else {
      assert RemoveFrom(rings, from, t) == rings;
    }
  }

  lemma RemoveKeepsPartition<T>(rings: seq<seq<T>>, r: nat, t: T)
    requires Partition(rings) && r < |rings|
    ensures Partition(RemoveFrom(rings, r, t))
    ensures forall q, x :: 0 <= q < |rings| ==>
              (x in RemoveFrom(rings, r, t)[q] <==> x in rings[q] && !(q == r && x == t))
    ensures TotalSize(RemoveFrom(rings, r, t)) == TotalSize(rings) - (if t in rings[r] then 1 else 0)
  {
    var after := RemoveFrom(rings, r, t);
    WithoutMembers(rings[r], t, t);
    forall q, x | 0 <= q < |rings|
      ensures x in after[q] <==> x in rings[q] && !(q == r && x == t)
    {
      WithoutMembers(rings[r], t, x);
    }
    TotalSizeUpdate(rings, r, Without(rings[r], t));
  }

  lemma RemoveKeepsLinked<T>(rings: seq<seq<T>>, r: nat, t: T, x: T)
    requires Partition(rings) && r < |rings|
    ensures Linked(RemoveFrom(rings, r, t), x) <==> Linked(rings, x) && !(x == t && t in rings[r])
  {
    RemoveKeepsPartition(rings, r, t);
    if Linked(rings, x) && !(x == t && t in rings[r]) {
      var q :| 0 <= q < |rings| && x in rings[q];
      assert x in RemoveFrom(rings, r, t)[q];
    }
  }

  lemma AppendKeepsPartition<T>(rings: seq<seq<T>>, r: nat, t: T)
    requires Partition(rings) && r < |rings|
    ensures Partition(AppendTo(rings, r, t))
    ensures TotalSize(AppendTo(rings, r, t)) == TotalSize(rings) + (if Linked(rings, t) then 0 else 1)
  {
    TotalSizeUpdate(rings, r, rings[r] + [t]);
  }

  lemma AppendKeepsLinked<T>(rings: seq<seq<T>>, r: nat, t: T, x: T)
    requires r < |rings|
    ensures Linked(AppendTo(rings, r, t), x) <==> Linked(rings, x) || x == t
  {
    if Linked(rings, x) {
      var q :| 0 <= q < |rings| && x in rings[q];
      assert x in AppendTo(rings, r, t)[q];
    } else if x == t {
      assert x in AppendTo(rings, r, t)[r];
    }
  }

  /** Where every task is after the move of t from one ring to another. */
  lemma MovedMember<T>(rings: seq<seq<T>>, from: nat, to: nat, t: T, r: nat, x: T)
    requires Partition(rings) && from < |rings| && to < |rings| && from != to && r < |rings|
    requires t in rings[from]
    ensures x in Move(rings, from, to, t)[r] <==> (if x == t then r == to else x in rings[r])
    ensures NoDuplicates(Move(rings, from, to, t)[r])
  {
    MoveOut(rings, from, to, t);
    WithoutMembers(rings[from], t, x);
    assert t !in rings[to];
  }

  lemma MoveKeepsPartition<T>(rings: seq<seq<T>>, from: nat, to: nat, t: T)
    requires Partition(rings) && from < |rings| && to < |rings| && from != to
    requires Linked(rings, t)
    ensures Partition(Move(rings, from, to, t))
    ensures TotalSize(Move(rings, from, to, t)) == TotalSize(rings)
  {
    MoveOut(rings, from, to, t);
    if t in rings[from] {
      var after := Move(rings, from, to, t);
      forall r, x | 0 <= r < |rings|
        ensures NoDuplicates(after[r]) && (x in after[r] <==> (if x == t then r == to else x in rings[r]))
      {
        MovedMember(rings, from, to, t, r, x);
      }
      TotalSizeUpdate(rings, from, Without(rings[from], t));
      TotalSizeUpdate(rings[from := Without(rings[from], t)], to, rings[to] + [t]);
    }
  }

  lemma MoveKeepsLinked<T>(rings: seq<seq<T>>, from: nat, to: nat, t: T, x: T)
    requires Partition(rings) && from < |rings| && to < |rings| && from != to
    requires Linked(rings, t)
    ensures Linked(Move(rings, from, to, t), x) <==> Linked(rings, x)
  {
    MoveOut(rings, from, to, t);
    if t in rings[from] {
      forall r | 0 <= r < |rings|
        ensures x in Move(rings, from, to, t)[r] <==> (if x == t then r == to else x in rings[r])
      {
        MovedMember(rings, from, to, t, r, x);
      }
    }
  }

  lemma NewcomerIsLoose<T>(s: State<T>, t: T)
    requires Shape(s) && t !in s.tcb
    ensures !Linked(s.rings, t)
  {}

  /** A new empty ring changes nothing for the tasks. */
  lemma AddRing<T>(rings: seq<seq<T>>)
    requires Partition(rings)
    ensures Partition(rings + [[]]) && TotalSize(rings + [[]]) == TotalSize(rings)
    ensures forall t :: Linked(rings + [[]], t) <==> Linked(rings, t)
  {
    var more := rings + [[]];
    assert more[..|rings|] == rings;
    forall t
      ensures Linked(more, t) <==> Linked(rings, t)
    {
      if Linked(rings, t) {
        var r :| 0 <= r < |rings| && t in rings[r];
        assert t in more[r];
      }
    }
  }

  // ---------------------------------------------------------------- the traversals

  /** The due tasks of a walk, in walk order. */
  function Taken<T(==)>(walk: seq<T>, tcb: map<T, Tcb>, why: Reason): (r: seq<T>)
    requires forall i :: 0 <= i < |walk| ==> walk[i] in tcb
    ensures forall t :: t in r ==> t in walk && Due(tcb[t], why)
  {
    if walk == [] then []
    else
      var last := walk[|walk| - 1];
      Taken(walk[..|walk| - 1], tcb, why) + (if Due(tcb[last], why) then [last] else [])
  }

  /** The others, in walk order. */
  function Kept<T(==)>(walk: seq<T>, tcb: map<T, Tcb>, why: Reason): (r: seq<T>)
    requires forall i :: 0 <= i < |walk| ==> walk[i] in tcb
    ensures forall t :: t in r ==> t in walk && !Due(tcb[t], why)
  {
    if walk == [] then []
    else
      var last := walk[|walk| - 1];
      Kept(walk[..|walk| - 1], tcb, why) + (if Due(tcb[last], why) then [] else [last])
  }

  function Roused(p: Tcb, why: Reason): Tcb {
    if why.Alarm? then p.(status := Ready) else p.(status := Ready, waitingTask := NOBODY)
  }

  lemma WakeInPlace<T>(s: State<T>, ring: nat, why: Reason, kept: seq<T>, t: T, rest: seq<T>)
    requires Shape(s) && Partition(s.rings) && READY_RING < ring < |s.rings|
    requires s.rings[ring] == kept + [t] + rest && t !in kept && t in s.tcb && Due(s.tcb[t], why)
    ensures var r := WakeOne(s, ring, why, t);
            && Partition(r.rings)
            && r == s.(rings := s.rings[ring := kept + rest][READY_RING := s.rings[READY_RING] + [t]],
                       tcb := s.tcb[t := Roused(s.tcb[t], why)])
  {
    assert t == s.rings[ring][|kept|];
    MoveOut(s.rings, ring, READY_RING, t);
    MoveKeepsPartition(s.rings, ring, READY_RING, t);
    WithoutMiddle(kept, t, rest);
    var r := WakeOne(s, ring, why, t);
    assert r.tcb == s.tcb[t := Roused(s.tcb[t], why)];
  }

  function RingsAfterWalk<T(==)>(s: State<T>, ring: nat, why: Reason, k: nat): seq<seq<T>>
    requires Shape(s) && READY_RING < ring < |s.rings| && k <= |s.rings[ring]|
  {
    var walk := s.rings[ring];
    s.rings[ring := Kept(walk[..k], s.tcb, why) + walk[k..]]
           [READY_RING := s.rings[READY_RING] + Taken(walk[..k], s.tcb, why)]
  }

  function TcbAfterWalk<T(==)>(s: State<T>, ring: nat, why: Reason, k: nat): map<T, Tcb>
    requires Shape(s) && READY_RING < ring < |s.rings| && k <= |s.rings[ring]|
  {
    map t | t in s.tcb ::
      if t in s.rings[ring][..k] && Due(s.tcb[t], why) then Roused(s.tcb[t], why) else s.tcb[t]
  }

  lemma RingsAfterStep<T>(s: State<T>, ring: nat, why: Reason, k: nat)
    requires Shape(s) && READY_RING < ring < |s.rings| && k < |s.rings[ring]|
    ensures var t := s.rings[ring][k];
            var kept := Kept(s.rings[ring][..k], s.tcb, why);
            && RingsAfterWalk(s, ring, why, k)[ring] == kept + [t] + s.rings[ring][k + 1..]
            && RingsAfterWalk(s, ring, why, k + 1) ==
               if Due(s.tcb[t], why)
               then RingsAfterWalk(s, ring, why, k)[ring := kept + s.rings[ring][k + 1..]]
                                                   [READY_RING := RingsAfterWalk(s, ring, why, k)[READY_RING] + [t]]
               else RingsAfterWalk(s, ring, why, k)
  {
    var walk := s.rings[ring];
    assert walk[..k + 1][..k] == walk[..k];
    assert walk[k..] == [walk[k]] + walk[k + 1..];
    var taken := Taken(walk[..k], s.tcb, why);
    assert s.rings[READY_RING] + (taken + [walk[k]]) == s.rings[READY_RING] + taken + [walk[k]];
    var kept := Kept(walk[..k], s.tcb, why);
    assert kept + walk[k..] == kept + [walk[k]] + walk[k + 1..];
    assert taken + [] == taken && kept + [] == kept;
  }

  lemma TcbAfterStep<T>(s: State<T>, ring: nat, why: Reason, k: nat)
    requires Shape(s) && READY_RING < ring < |s.rings| && k < |s.rings[ring]| && NoDuplicates(s.rings[ring])
    ensures var t := s.rings[ring][k];
            var before := TcbAfterWalk(s, ring, why, k);
            && t in before && before[t] == s.tcb[t]
            && TcbAfterWalk(s, ring, why, k + 1) ==
               if Due(s.tcb[t], why) then before[t := Roused(s.tcb[t], why)] else before
  {
    var walk := s.rings[ring];
    assert walk[k] !in walk[..k];
    assert walk[..k + 1] == walk[..k] + [walk[k]];
  }

  /**
   * Taking tasks out while walking is a stable partition of the ring: after k steps the
   * due ones among the first k stand at the tail of the ready ring, in order, the others
   * still stand at the head of their own ring, in order, and nothing else has changed.
   */
  lemma {:induction false} WakePrefix<T>(s: State<T>, ring: nat, why: Reason, k: nat)
    requires Shape(s) && Partition(s.rings) && READY_RING < ring < |s.rings| && k <= |s.rings[ring]|
    ensures var r := WakeAll(s, ring, why, s.rings[ring][..k]);
            && Partition(r.rings)
            && r == s.(rings := RingsAfterWalk(s, ring, why, k), tcb := TcbAfterWalk(s, ring, why, k))
  {
    var walk := s.rings[ring];
    if k == 0 {
      assert walk[..0] == [] && [] + walk[0..] == walk && s.rings[READY_RING] + [] == s.rings[READY_RING];
      assert RingsAfterWalk(s, ring, why, 0) == s.rings;
      assert TcbAfterWalk(s, ring, why, 0) == s.tcb;
    } else {
      WakePrefix(s, ring, why, k - 1);
      assert walk[..k][..k - 1] == walk[..k - 1];
      var mid := WakeAll(s, ring, why, walk[..k - 1]);
      RingsAfterStep(s, ring, why, k - 1);
      TcbAfterStep(s, ring, why, k - 1);
      if Due(s.tcb[walk[k - 1]], why) {
        assert walk[k - 1] !in walk[..k - 1];
        WakeInPlace(mid, ring, why, Kept(walk[..k - 1], s.tcb, why), walk[k - 1], walk[k..]);
      }
    }
  }

  /** A traversal renames nobody. */
  lemma WalkKeepsId<T>(s: State<T>, ring: nat, why: Reason, t: T)
    requires Shape(s) && Partition(s.rings) && READY_RING < ring < |s.rings| && t in s.tcb
    ensures WakeAll(s, ring, why, s.rings[ring]).tcb[t].id == s.tcb[t].id
  {
    var walk := s.rings[ring];
    assert walk[..|walk|] == walk;
    WakePrefix(s, ring, why, |walk|);
  }

  ghost predicate InOrderOf<T>(r: seq<T>, walk: seq<T>) {
    && (forall i :: 0 <= i < |r| ==> r[i] in walk)
    && (forall i, j :: 0 <= i < j < |r| ==> IndexOf(walk, r[i]) < IndexOf(walk, r[j]))
  }

  lemma InOrderOfLonger<T>(r: seq<T>, walk: seq<T>, last: T)
    requires InOrderOf(r, walk) && last !in walk
    ensures InOrderOf(r, walk + [last]) && InOrderOf(r + [last], walk + [last])
  {
    var longer := walk + [last];
    assert longer[..|walk|] == walk && longer[|walk|] == last;
    FirstIndex(longer, last, |walk|);
    forall x | x in walk
      ensures IndexOf(longer, x) == IndexOf(walk, x)
    {
      var i := IndexOf(walk, x);
      assert longer[i] == x && longer[..i] == walk[..i];
      FirstIndex(longer, x, i);
    }
  }

  lemma {:induction false} NoneLost<T>(walk: seq<T>, tcb: map<T, Tcb>, why: Reason)
    requires forall i :: 0 <= i < |walk| ==> walk[i] in tcb
    ensures multiset(Taken(walk, tcb, why)) + multiset(Kept(walk, tcb, why)) == multiset(walk)
  {
    if walk != [] {
      assert walk == walk[..|walk| - 1] + [walk[|walk| - 1]];
      NoneLost(walk[..|walk| - 1], tcb, why);
    }
  }

  lemma {:induction false} BothInOrder<T>(walk: seq<T>, tcb: map<T, Tcb>, why: Reason)
    requires NoDuplicates(walk) && forall i :: 0 <= i < |walk| ==> walk[i] in tcb
    ensures InOrderOf(Taken(walk, tcb, why), walk) && InOrderOf(Kept(walk, tcb, why), walk)
  {
    if walk != [] {
      var front, last := walk[..|walk| - 1], walk[|walk| - 1];
      assert walk == front + [last];
      BothInOrder(front, tcb, why);
      InOrderOfLonger(Taken(front, tcb, why), front, last);
      InOrderOfLonger(Kept(front, tcb, why), front, last);
      assert Taken(front, tcb, why) + [] == Taken(front, tcb, why);
      assert Kept(front, tcb, why) + [] == Kept(front, tcb, why);
    }
  }

  /** Every task of the walk is taken or kept, once; the due ones are taken; both halves keep the walk's order. */
  lemma StablePartition<T>(walk: seq<T>, tcb: map<T, Tcb>, why: Reason)
    requires NoDuplicates(walk) && forall i :: 0 <= i < |walk| ==> walk[i] in tcb
    ensures multiset(Taken(walk, tcb, why)) + multiset(Kept(walk, tcb, why)) == multiset(walk)
    ensures forall t :: t in walk ==> (Due(tcb[t], why) <==> t in Taken(walk, tcb, why))
    ensures forall t :: t in walk ==> (!Due(tcb[t], why) <==> t in Kept(walk, tcb, why))
    ensures InOrderOf(Taken(walk, tcb, why), walk) && InOrderOf(Kept(walk, tcb, why), walk)
  {
    NoneLost(walk, tcb, why);
    BothInOrder(walk, tcb, why);
    forall t | t in walk
      ensures t in Taken(walk, tcb, why) || t in Kept(walk, tcb, why)
    {
      assert t in multiset(walk);
    }
  }

  lemma WakeNext<T>(s: State<T>, ring: nat, why: Reason, k: nat)
    requires Shape(s) && ring < |s.rings| && k < |s.rings[ring]|
    ensures WakeAll(s, ring, why, s.rings[ring][..k + 1]) ==
            WakeOne(WakeAll(s, ring, why, s.rings[ring][..k]), ring, why, s.rings[ring][k])
  {
    assert s.rings[ring][..k + 1][..k] == s.rings[ring][..k];
  }

  /** What a walker sees after k steps: its current task right behind those kept, and the ring's end still in place. */
  lemma RingDuringWalk<T>(s: State<T>, ring: nat, why: Reason, k: nat)
    requires Shape(s) && Partition(s.rings) && READY_RING < ring < |s.rings| && k < |s.rings[ring]|
    ensures var walk := s.rings[ring];
            var now := WakeAll(s, ring, why, walk[..k]).rings[ring];
            && |now| - |walk[k..]| >= 0
            && now[|now| - |walk[k..]|] == walk[k]
            && now[|now| - 1] == walk[|walk| - 1]
            && (k + 1 < |walk| ==> now[|now| - |walk[k..]| + 1] == walk[k + 1])
  {
    WakePrefix(s, ring, why, k);
  }

  lemma ReleaseShrinks<T>(s: State<T>, ring: nat)
    requires Shape(s) && READY_RING < ring < |s.rings| && s.rings[ring] != []
    ensures |TaskResume(s, s.rings[ring][0], ring).rings[ring]| == |s.rings[ring]| - 1
  {}

  // ---------------------------------------------------------------- the scheduler's scans

  lemma ChooseNext<T>(ready: seq<T>, tcb: map<T, Tcb>, k: nat)
    requires 0 < k < |ready| && forall i :: 0 <= i < |ready| ==> ready[i] in tcb
    ensures Choose(ready[..k + 1], tcb) ==
            var best := Choose(ready[..k], tcb);
            if tcb[ready[k]].dynamicPriority < tcb[best].dynamicPriority then ready[k] else best
  {
    assert ready[..k + 1][..k] == ready[..k];
  }

  lemma AgedNext<T>(ready: seq<T>, tcb: map<T, Tcb>, k: nat)
    requires k < |ready| && NoDuplicates(ready) && ready[k] in tcb
    ensures var before := Aged(ready[..k], tcb);
            && before[ready[k]] == tcb[ready[k]]
            && Aged(ready[..k + 1], tcb) ==
               before[ready[k] := tcb[ready[k]].(dynamicPriority := tcb[ready[k]].dynamicPriority + ALPHA)]
  {
    assert ready[..k + 1] == ready[..k] + [ready[k]];
    assert ready[k] !in ready[..k];
  }
}
