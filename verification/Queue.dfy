/**
 * The generic intrusive queue: a circular doubly linked ring reached through a
 * head pointer.  A queue cell is a node whose payload the queue never reads.
 */
module Queues {
  import opened Sequences

  const SUCCESS := 0
  const EMPTY_QUEUE := -1
  const NO_ELEM := -2
  const BELONGS_TO_ANOTHER_QUEUE := -3
  const NO_QUEUE := -4
  const NOT_ON_QUEUE := -5

  class Node<T> {
    var prev: Node?<T>
    var next: Node?<T>
    var item: T

    constructor (item: T)
      ensures prev == null && next == null && this.item == item
    {
      prev, next, this.item := null, null, item;
    }
  }

  function Succ(i: nat, n: nat): (j: nat)
    requires i < n
    ensures j < n
  {
    if i + 1 == n then 0 else i + 1
  }

  function Pred(i: nat, n: nat): (j: nat)
    requires i < n
    ensures j < n
  {
    if i == 0 then n - 1 else i - 1
  }

  /** The nodes of s, in this order, form one closed ring. */
  ghost predicate Circular<T>(s: seq<Node<T>>)
    reads s`prev, s`next
  {
    && NoDuplicates(s)
    && (forall i {:trigger s[i].next} :: 0 <= i < |s| ==> s[i].next == s[Succ(i, |s|)])
    && (forall i {:trigger s[i].prev} :: 0 <= i < |s| ==> s[i].prev == s[Pred(i, |s|)])
  }

  /** A queue variable of the source: the head pointer of one ring. */
  class Queue<T> {
    var head: Node?<T>
    ghost var elems: seq<Node<T>>

    ghost predicate Valid()
      reads this, elems`prev, elems`next
    {
      && head == (if elems == [] then null else elems[0])
      && Circular(elems)
    }

    constructor ()
      ensures Valid() && elems == []
    {
      head, elems := null, [];
    }
  }

  /** A ring none of whose cells is written stays a ring. */
  twostate lemma RingFrame<T>(queue: Queue<T>)
    requires old(queue.Valid()) && unchanged(queue)
    requires forall n :: n in queue.elems ==> n.prev == old(n.prev) && n.next == old(n.next)
    ensures queue.Valid()
  {}

  method QueueSize<T>(queue: Queue<T>) returns (size: int)
    requires queue.Valid()
    ensures size == |queue.elems|
  {
    if queue.head == null {
      return 0;
    }
    var aux := queue.head;
    size := 1;
    while aux.next != queue.head
      invariant 1 <= size <= |queue.elems|
      invariant aux == queue.elems[size - 1]
      decreases |queue.elems| - size
    {
      aux := aux.next;
      size := size + 1;
    }
  }

  /** queue_append once the queue itself is known to exist. */
  method Append<T>(queue: Queue<T>, elem: Node?<T>) returns (code: int)
    requires queue.Valid()
    modifies queue, queue.elems`prev, queue.elems`next
    modifies (if elem == null then {} else {elem})`prev
    modifies (if elem == null then {} else {elem})`next
    ensures queue.Valid()
    ensures code == (if elem == null then NO_ELEM
                     else if old(elem.next) != null || old(elem.prev) != null then BELONGS_TO_ANOTHER_QUEUE
                     else SUCCESS)
    ensures code == SUCCESS ==> queue.elems == old(queue.elems) + [elem]
    ensures code != SUCCESS ==> unchanged(queue) && unchanged(queue.elems)
    ensures code != SUCCESS && elem != null ==> unchanged(elem)
  {
    if elem == null {
      return NO_ELEM;
    }
    if elem.next != null || elem.prev != null {
      return BELONGS_TO_ANOTHER_QUEUE;
    }
    assert elem !in queue.elems;
    if queue.head == null {
      queue.head := elem;
      elem.prev := queue.head;
      elem.next := queue.head;
      queue.elems := [elem];
      return SUCCESS;
    }
    var aux := queue.head.prev;
    aux.next := elem;
    elem.next := queue.head;
    queue.head.prev := elem;
    elem.prev := aux;
    queue.elems := queue.elems + [elem];
    return SUCCESS;
  }

  /** queue_append: add a node no ring holds at the tail; anything else is refused and changes nothing. */
  method QueueAppend<T>(queue: Queue?<T>, elem: Node?<T>) returns (code: int)
    requires queue != null ==> queue.Valid()
    modifies if queue == null then {} else {queue}
    modifies (if queue == null then [] else queue.elems)`prev
    modifies (if queue == null then [] else queue.elems)`next
    modifies (if elem == null then {} else {elem})`prev
    modifies (if elem == null then {} else {elem})`next
    ensures queue != null ==> queue.Valid()
    ensures code == (if queue == null then NO_QUEUE
                     else if elem == null then NO_ELEM
                     else if old(elem.next) != null || old(elem.prev) != null then BELONGS_TO_ANOTHER_QUEUE
                     else SUCCESS)
    ensures code == SUCCESS ==> queue.elems == old(queue.elems) + [elem]
    ensures code != SUCCESS && queue != null ==> unchanged(queue) && unchanged(queue.elems)
    ensures code != SUCCESS && elem != null ==> unchanged(elem)
  {
    if queue == null {
      return NO_QUEUE;
    }
    code := Append(queue, elem);
  }

  /** Two rings are either the same set of nodes or share none. */
  lemma RingsShareAllOrNothing<T>(s: seq<Node<T>>, t: seq<Node<T>>, x: Node<T>, y: Node<T>)
    requires Circular(s) && Circular(t)
    requires x in s && x in t && y in s
    ensures y in t
  {
    var i := IndexOf(s, x);
    var last := |s| - 1;
    RingFollows(s, t, i, last);
    assert s[last].next == s[0] && s[0] in t by {
      var j := IndexOf(t, s[last]);
      assert t[j].next == t[Succ(j, |t|)];
    }
    RingFollows(s, t, 0, IndexOf(s, y));
  }

  lemma {:induction false} RingFollows<T>(s: seq<Node<T>>, t: seq<Node<T>>, i: nat, k: nat)
    requires Circular(s) && Circular(t)
    requires i <= k < |s| && s[i] in t
    ensures s[k] in t
  {
    if i < k {
      RingFollows(s, t, i, k - 1);
      var j := IndexOf(t, s[k - 1]);
      assert t[j].next == t[Succ(j, |t|)] && s[k - 1].next == s[Succ(k - 1, |s|)];
    }
  }

  /** The membership walk: go round the ring elem is linked in until it closes or the head turns up. */
  method BelongsTo<T>(queue: Queue<T>, elem: Node<T>, ghost home: seq<Node<T>>) returns (mine: bool)
    requires queue.Valid() && queue.head != null
    requires Circular(home) && elem in home
    ensures mine <==> elem in queue.elems
  {
    ghost var ring := if elem in queue.elems then queue.elems else home;
    if elem !in queue.elems {
      forall i, j | 0 <= i < |home| && 0 <= j < |queue.elems|
        ensures home[i] != queue.elems[j]
      {
        if home[i] == queue.elems[j] {
          RingsShareAllOrNothing(home, queue.elems, home[i], elem);
        }
      }
    }
    ghost var p := IndexOf(ring, elem);
    ghost var n := |ring|;
    ghost var k := 1;
    var aux := elem.next;
    while aux != elem && aux != queue.head
      invariant 1 <= k <= n
      invariant aux == ring[if p + k < n then p + k else p + k - n]
      invariant elem in queue.elems && 0 < p ==> p + k <= n
      decreases n - k
    {
      aux := aux.next;
      k := k + 1;
    }
    mine := !(aux == elem && aux != queue.head);
  }

  /** A ring in which every other node points past s[p] is the ring without s[p]. */
  lemma BypassedRing<T>(s: seq<Node<T>>, p: nat)
    requires p < |s| && 1 < |s| && NoDuplicates(s)
    requires forall i {:trigger s[i].next} :: 0 <= i < |s| && i != p ==>
               s[i].next == s[if Succ(i, |s|) == p then Succ(p, |s|) else Succ(i, |s|)]
    requires forall i {:trigger s[i].prev} :: 0 <= i < |s| && i != p ==>
               s[i].prev == s[if Pred(i, |s|) == p then Pred(p, |s|) else Pred(i, |s|)]
    ensures Circular(s[..p] + s[p + 1..])
  {
    var t := s[..p] + s[p + 1..];
    forall j | 0 <= j < |t|
      ensures t[j].next == t[Succ(j, |t|)] && t[j].prev == t[Pred(j, |t|)]
    {
      var i := if j < p then j else j + 1;
      assert t[j] == s[i];
    }
  }

  /** A node's neighbours are linked to each other past it. */
  method Bypass<T>(ghost s: seq<Node<T>>, ghost p: nat, elem: Node<T>)
    requires Circular(s) && 1 < |s| && p < |s| && s[p] == elem
    modifies s`prev, s`next
    ensures Circular(s[..p] + s[p + 1..])
    ensures elem.next == null && elem.prev == null
  {
    assert elem.prev == s[Pred(p, |s|)] && elem.next == s[Succ(p, |s|)];
    elem.prev.next := elem.next;
    elem.next.prev := elem.prev;
    elem.next := null;
    elem.prev := null;
    BypassedRing(s, p);
  }

  /** Take elem out of its ring, moving the head on when elem is first. */
  method Unlink<T>(queue: Queue<T>, elem: Node<T>)
    requires queue.Valid() && elem in queue.elems
    modifies queue, queue.elems`prev, queue.elems`next
    ensures queue.Valid()
    ensures queue.elems == Without(old(queue.elems), elem)
    ensures elem.next == null && elem.prev == null
  {
    ghost var s := queue.elems;
    ghost var p := IndexOf(s, elem);
    queue.elems := s[..p] + s[p + 1..];
    if elem.next == elem {
      queue.head := null;
      elem.next := null;
      elem.prev := null;
      return;
    }
    if elem == queue.head {
      queue.head := elem.next;
    }
    Bypass(s, p, elem);
  }

  /**
   * queue_remove once the queue itself is known to exist.  `home` is the ring the node
   * is linked in, if it is linked at all: it may be this queue's ring or any other.
   */
  method Remove<T>(queue: Queue<T>, elem: Node?<T>, ghost home: seq<Node<T>>) returns (code: int)
    requires queue.Valid()
    requires elem != null && elem.next != null && elem.prev != null ==> Circular(home) && elem in home
    modifies queue, queue.elems`prev, queue.elems`next
    ensures queue.Valid()
    ensures code == (if elem == null then NO_ELEM
                     else if old(queue.elems) == [] then EMPTY_QUEUE
                     else if old(elem.next) == null || old(elem.prev) == null then NOT_ON_QUEUE
                     else if elem !in old(queue.elems) then BELONGS_TO_ANOTHER_QUEUE
                     else SUCCESS)
    ensures code == SUCCESS <==> elem != null && elem in old(queue.elems)
    ensures code == SUCCESS ==> queue.elems == Without(old(queue.elems), elem)
    ensures code == SUCCESS ==> elem.next == null && elem.prev == null
    ensures code != SUCCESS ==> unchanged(queue) && unchanged(queue.elems)
  {
    if elem == null {
      return NO_ELEM;
    }
    if queue.head == null {
      return EMPTY_QUEUE;
    }
    if elem.next == null || elem.prev == null {
      return NOT_ON_QUEUE;
    }
    var mine := BelongsTo(queue, elem, home);
    if !mine {
      return BELONGS_TO_ANOTHER_QUEUE;
    }
    Unlink(queue, elem);
    return SUCCESS;
  }

  /** queue_remove: it succeeds exactly on the nodes of this ring; otherwise the heap is left alone. */
  method QueueRemove<T>(queue: Queue?<T>, elem: Node?<T>, ghost home: seq<Node<T>>) returns (code: int)
    requires queue != null ==> queue.Valid()
    requires elem != null && elem.next != null && elem.prev != null ==> Circular(home) && elem in home
    modifies if queue == null then {} else {queue}
    modifies (if queue == null then [] else queue.elems)`prev
    modifies (if queue == null then [] else queue.elems)`next
    ensures queue != null ==> queue.Valid()
    ensures code == (if queue == null then NO_QUEUE
                     else if elem == null then NO_ELEM
                     else if old(queue.elems) == [] then EMPTY_QUEUE
                     else if old(elem.next) == null || old(elem.prev) == null then NOT_ON_QUEUE
                     else if elem !in old(queue.elems) then BELONGS_TO_ANOTHER_QUEUE
                     else SUCCESS)
    ensures code == SUCCESS <==> queue != null && elem != null && elem in old(queue.elems)
    ensures code == SUCCESS ==> queue.elems == Without(old(queue.elems), elem) && elem.next == null && elem.prev == null
    ensures code != SUCCESS && queue != null ==> unchanged(queue) && unchanged(queue.elems)
  {
    if queue == null {
      return NO_QUEUE;
    }
    code := Remove(queue, elem, home);
  }

  /** The use every caller makes of it at the head: the first cell goes, the rest stays. */
  method RemoveFirst<T>(queue: Queue<T>)
    requires queue.Valid() && queue.head != null
    modifies queue, queue.elems`prev, queue.elems`next
    ensures queue.Valid() && queue.elems == old(queue.elems)[1..]
  {
    var first := queue.head;
    ghost var rest := queue.elems[1..];
    assert queue.elems == [] + [first] + rest;
    WithoutMiddle([], first, rest);
    var _ := QueueRemove(queue, first, queue.elems);
    assert [] + rest == rest;
  }
}
