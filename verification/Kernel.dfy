/** The kernel over linked task descriptors, each call proved against KernelSpec. */
module Kernels {
  import opened Sequences
  import opened Queues
  import opened KernelSpec
  import opened KernelRings

  type Task = Node<Tcb>

  method EmptyQueues(n: nat) returns (qs: seq<Queue<Tcb>>)
    ensures |qs| == n && NoDuplicates(qs)
    ensures forall i :: 0 <= i < n ==> fresh(qs[i]) && qs[i].Valid() && qs[i].elems == []
  {
    qs := [];
    for i := 0 to n
      invariant |qs| == i && NoDuplicates(qs)
      invariant forall j :: 0 <= j < i ==> fresh(qs[j]) && qs[j].Valid() && qs[j].elems == []
    {
      var q := new Queue<Tcb>();
      qs := qs + [q];
    }
  }

  class Kernel {
    var rings: seq<Queue<Tcb>>
    var sems: seq<Sem>
    var curr: Task
    const dispatcher: Task
    const driver: Task
    var userTasksNum: int
    var sysclock: int
    var lastTaskId: int

    /** The value of the whole kernel; Valid ties it to the fields and the linked nodes. */
    ghost var model: State<Task>

    ghost predicate Valid()
      reads this, rings, model.tcb.Keys, driver
    {
      && Shape(model)
      && Partition(model.rings)
      && ScalarsMatch()
      && NoDuplicates(rings)
      && QueuesMatch()
      && RecordsMatch()
      && (driver !in model.tcb ==> driver.item.id == UNSET_DRIVER_PID)
    }

    ghost predicate ScalarsMatch()
      reads this
    {
      && model.sems == sems && model.curr == curr
      && model.dispatcher == dispatcher && model.driver == driver
      && model.userTasks == userTasksNum && model.clock == sysclock && model.lastId == lastTaskId
    }

    ghost predicate QueuesMatch()
      requires Shape(model)
      reads this, rings, model.tcb.Keys
    {
      && |rings| == |model.rings|
      && forall i :: 0 <= i < |rings| ==> rings[i].elems == model.rings[i] && rings[i].Valid()
    }

    ghost predicate RecordsMatch()
      reads this, model.tcb.Keys
    {
      && (forall t {:trigger t.item} {:trigger model.tcb[t]} :: t in model.tcb ==> t.item == model.tcb[t])
      && (forall t {:trigger Linked(model.rings, t)} :: t in model.tcb && !Linked(model.rings, t) ==>
            t.prev == null && t.next == null)
    }

    /** The kernel's globals with the three descriptors filled in and every ring empty. */
    constructor (main: Task, dispatcher: Task, driver: Task)
      requires main != dispatcher && driver != main && driver != dispatcher
      requires main.prev == null && main.next == null && dispatcher.prev == null && dispatcher.next == null
      modifies main`item, dispatcher`item, driver`item
      ensures Valid() && model == Boot(main, dispatcher, driver).(rings := [[], [], [], []], userTasks := 0)
    {
      dispatcher.item := DispatcherTcb();
      driver.item := NewTcb(UNSET_DRIVER_PID);
      main.item := MainTcb();
      var qs := EmptyQueues(FIRST_SEM_RING);
      rings := qs;
      sems, curr, this.dispatcher, this.driver := [], main, dispatcher, driver;
      userTasksNum, sysclock, lastTaskId := 0, 0, 0;
      model := Boot(main, dispatcher, driver).(rings := [[], [], [], []], userTasks := 0);
      new;
    }

    /** ppos_init puts the main task in the ready ring and counts it. */
    method PposInit()
      requires Valid() && model == Boot(curr, dispatcher, driver).(rings := [[], [], [], []], userTasks := 0)
      modifies this`model, this`userTasksNum, rings[READY_RING], model.tcb.Keys`prev, model.tcb.Keys`next
      ensures Valid() && model == Boot(curr, dispatcher, driver) && curr == old(curr)
    {
      assert !Linked(model.rings, curr);
      Enqueue(READY_RING, curr);
      Recount(1);
      assert [] + [curr] == [curr];
    }

    /** Rings other than r are as they were when only cells of r, and t if it was loose, are written. */
    twostate lemma OtherRingsStay(r: nat, new t: Task)
      requires old(Valid()) && r < |rings| && rings == old(rings) && t in old(model.tcb)
      requires forall i :: 0 <= i < |rings| && i != r ==> unchanged(rings[i])
      requires forall x: Task :: x in old(model.tcb) && x !in old(rings[r].elems) && x != t ==>
                 x.prev == old(x.prev) && x.next == old(x.next)
      requires old(Linked(model.rings, t)) && t !in old(rings[r].elems) ==> t.prev == old(t.prev) && t.next == old(t.next)
      ensures forall i :: 0 <= i < |rings| && i != r ==> rings[i].elems == old(model).rings[i] && rings[i].Valid()
    {
      forall i | 0 <= i < |rings| && i != r
        ensures rings[i].elems == old(model).rings[i] && rings[i].Valid()
      {
        forall x: Task | x in old(model.rings[i])
          ensures x.prev == old(x.prev) && x.next == old(x.next)
        {
          assert x !in old(model.rings[r]) && old(rings[r].elems) == old(model.rings[r]);
        }
        RingFrame(rings[i]);
      }
    }

    twostate lemma DequeueKeepsValid(r: nat, new t: Task)
      requires old(Valid()) && r < |rings| && rings == old(rings) && t in old(model.tcb)
      requires forall i :: 0 <= i < |rings| && i != r ==> unchanged(rings[i])
      requires forall x: Task :: x in old(model.tcb) && x !in old(rings[r].elems) ==>
                 x.prev == old(x.prev) && x.next == old(x.next)
      requires sems == old(sems) && curr == old(curr)
      requires userTasksNum == old(userTasksNum) && sysclock == old(sysclock) && lastTaskId == old(lastTaskId)
      requires driver.item == old(driver.item)
      requires forall x: Task :: x in old(model.tcb) ==> x.item == old(x.item)
      requires rings[r].Valid()
      requires model == old(model).(rings := RemoveFrom(old(model).rings, r, t))
      requires rings[r].elems == Without(old(rings[r].elems), t)
      requires t in old(rings[r].elems) ==> t.prev == null && t.next == null
      ensures Valid()
    {
      OtherRingsStay(r, t);
      RemoveKeepsShape(old(model), r, t);
      assert QueuesMatch();
      assert Partition(model.rings) by { RemoveKeepsPartition(old(model).rings, r, t); }
      forall x | x in model.tcb
        ensures !Linked(model.rings, x) ==> x.prev == null && x.next == null
      {
        RemoveKeepsLinked(old(model).rings, r, t, x);
        if x in old(rings[r].elems) && x != t {
          assert x in old(model).rings[r];
        }
      }
    }

    twostate lemma EnqueueKeepsValid(r: nat, new t: Task)
      requires old(Valid()) && r < |rings| && rings == old(rings) && t in old(model.tcb)
      requires forall i :: 0 <= i < |rings| && i != r ==> unchanged(rings[i])
      requires forall x: Task :: x in old(model.tcb) && x !in old(rings[r].elems) && x != t ==>
                 x.prev == old(x.prev) && x.next == old(x.next)
      requires old(Linked(model.rings, t)) && t !in old(rings[r].elems) ==> t.prev == old(t.prev) && t.next == old(t.next)
      requires sems == old(sems) && curr == old(curr)
      requires userTasksNum == old(userTasksNum) && sysclock == old(sysclock) && lastTaskId == old(lastTaskId)
      requires driver.item == old(driver.item)
      requires forall x: Task :: x in old(model.tcb) ==> x.item == old(x.item)
      requires rings[r].Valid()
      requires model == old(model).(rings := AppendTo(old(model).rings, r, t))
      requires rings[r].elems == if old(Linked(model.rings, t)) then old(rings[r].elems) else old(rings[r].elems) + [t]
      ensures Valid()
    {
      OtherRingsStay(r, t);
      assert QueuesMatch();
      AppendKeepsPartition(old(model).rings, r, t);
      forall x | x in model.tcb
        ensures !Linked(model.rings, x) ==> x.prev == null && x.next == null
      {
        AppendKeepsLinked(old(model).rings, r, t, x);
        if x in old(rings[r].elems) {
          assert x in old(model).rings[r];
        }
      }
    }

    /** The heap side of Dequeue: finding the ring that queue_remove will walk. */
    method Detach(r: nat, t: Task)
      requires Valid() && r < |rings| && t in model.tcb
      modifies rings[r], rings[r].elems`prev, rings[r].elems`next
      ensures rings[r].Valid() && rings[r].elems == Without(old(rings[r].elems), t)
      ensures t in old(rings[r].elems) ==> t.prev == null && t.next == null
    {
      ghost var home := Home(t);
      var _ := Remove(rings[r], t, home);
    }

    /** queue_remove on one of the kernel's rings. */
    method Dequeue(r: nat, t: Task)
      requires Valid() && r < |rings| && t in model.tcb
      modifies this`model, rings[r], model.tcb.Keys`prev, model.tcb.Keys`next
      ensures Valid() && model == old(model).(rings := RemoveFrom(old(model).rings, r, t))
    {
      Detach(r, t);
      model := model.(rings := RemoveFrom(model.rings, r, t));
      DequeueKeepsValid(r, t);
    }

    /** queue_append on one of the kernel's rings. */
    method Enqueue(r: nat, t: Task)
      requires Valid() && r < |rings| && t in model.tcb
      modifies this`model, rings[r], model.tcb.Keys`prev, model.tcb.Keys`next
      ensures Valid() && model == old(model).(rings := AppendTo(old(model).rings, r, t))
    {
      LinkedMeansHeld(t);
      var _ := Append(rings[r], t);
      model := model.(rings := AppendTo(model.rings, r, t));
      EnqueueKeepsValid(r, t);
    }

    lemma LinkedMeansHeld(t: Task)
      requires Valid() && t in model.tcb
      ensures Linked(model.rings, t) <==> t.prev != null || t.next != null
    {
      if Linked(model.rings, t) {
        var i :| 0 <= i < |model.rings| && t in model.rings[i];
        assert rings[i].Valid();
        var j := IndexOf(model.rings[i], t);
        assert rings[i].elems[j].next != null;
      }
    }

    /** The ring a task is linked in, if any. */
    ghost function Home(t: Task): (home: seq<Task>)
      requires Shape(model) && QueuesMatch()
      reads this, rings, model.tcb.Keys
      ensures Linked(model.rings, t) ==> t in home && Circular(home)
    {
      if Linked(model.rings, t) then
        var i :| 0 <= i < |model.rings| && t in model.rings[i];
        assert rings[i].Valid();
        model.rings[i]
      else []
    }

    /** One descriptor's fields are written. */
    method SetItem(t: Task, p: Tcb)
      requires Valid() && t in model.tcb
      modifies this`model, t`item
      ensures Valid() && model == old(model).(tcb := old(model).tcb[t := p])
    {
      t.item := p;
      model := model.(tcb := model.tcb[t := p]);
    }

    // ---------------------------------------------------------------- switching

    method TaskSwitch(t: Task)
      requires Valid() && t in model.tcb
      modifies this`model, this`curr, model.tcb.Keys`item
      ensures Valid() && model == KernelSpec.TaskSwitch(old(model), t)
    {
      SetItem(curr, curr.item.(status := Suspended));
      SetItem(t, t.item.(status := Running));
      curr := t;
      model := model.(curr := t);
    }

    method TaskYield()
      requires Valid()
      modifies this`model, this`curr, model.tcb.Keys`item
      ensures Valid() && model == KernelSpec.TaskYield(old(model))
    {
      TaskSwitch(dispatcher);
    }

    method TaskSuspend(ring: nat)
      requires Valid() && ring < |rings|
      modifies this`model, this`curr, rings, model.tcb.Keys
      ensures Valid() && model == KernelSpec.TaskSuspend(old(model), ring)
    {
      Dequeue(READY_RING, curr);
      SetItem(curr, curr.item.(status := Suspended));
      Enqueue(ring, curr);
      TaskSwitch(dispatcher);
    }

    method TaskResume(t: Task, ring: nat)
      requires Valid() && t in model.tcb && ring < |rings|
      modifies this`model, rings, model.tcb.Keys
      ensures Valid() && model == KernelSpec.TaskResume(old(model), t, ring)
    {
      Dequeue(ring, t);
      SetItem(t, t.item.(status := Ready));
      Enqueue(READY_RING, t);
    }

    // ---------------------------------------------------------------- waking while walking

    method WakeOne(ring: nat, why: Reason, t: Task)
      requires Valid() && t in model.tcb && ring < |rings|
      modifies this`model, rings, model.tcb.Keys
      ensures Valid() && model == KernelSpec.WakeOne(old(model), ring, why, t)
    {
      if Due(t.item, why) {
        TaskResume(t, ring);
        if why.Exited? {
          SetItem(t, t.item.(waitingTask := NOBODY));
        }
      }
    }

    /** A traversal of `ring`, begun in state s, stands at the k-th task of the original ring. */
    ghost predicate Walking(s: State<Task>, ring: nat, why: Reason, k: nat, aux: Task)
      reads this, rings, model.tcb.Keys, driver
    {
      && Valid() && Shape(s) && Partition(s.rings) && READY_RING < ring < |rings| && |rings| == |s.rings|
      && k < |s.rings[ring]| && aux == s.rings[ring][k]
      && model == KernelSpec.WakeAll(s, ring, why, s.rings[ring][..k])
      && rings[ring].head != null
    }

    lemma AtEnd(s: State<Task>, ring: nat, why: Reason, k: nat, aux: Task)
      requires Walking(s, ring, why, k, aux)
      ensures aux == rings[ring].head.prev <==> k + 1 == |s.rings[ring]|
      ensures k + 1 < |s.rings[ring]| ==> aux.next == s.rings[ring][k + 1]
    {
      RingDuringWalk(s, ring, why, k);
    }

    method WalkOn(ghost s: State<Task>, ring: nat, why: Reason, ghost k: nat, aux: Task) returns (next: Task)
      requires Walking(s, ring, why, k, aux) && aux != rings[ring].head.prev
      modifies this`model, rings, model.tcb.Keys
      ensures rings == old(rings) && Walking(s, ring, why, k + 1, next)
    {
      AtEnd(s, ring, why, k, aux);
      next := aux.next;
      WakeOne(ring, why, aux);
      assert model == KernelSpec.WakeAll(s, ring, why, s.rings[ring][..k + 1]) by { WakeNext(s, ring, why, k); }
      assert rings[ring].head != null by { RingDuringWalk(s, ring, why, k + 1); }
    }

    /**
     * The loops of wake_tasks and task_exit: walk the ring up to its last task, fetching
     * the successor before the current task may be taken out, then look at the last one.
     */
    method WakeAll(ring: nat, why: Reason)
      requires Valid() && READY_RING < ring < |rings|
      modifies this`model, rings, model.tcb.Keys
      ensures Valid() && model == KernelSpec.WakeAll(old(model), ring, why, old(model).rings[ring])
    {
      ghost var s := model;
      ghost var walk := s.rings[ring];
      assert walk[..0] == [];
      if rings[ring].head == null {
        return;
      }
      var aux: Task := rings[ring].head;
      ghost var k := 0;
      while aux != rings[ring].head.prev
        invariant rings == old(rings) && model.tcb.Keys == s.tcb.Keys
        invariant Walking(s, ring, why, k, aux)
        decreases |walk| - k
      {
        AtEnd(s, ring, why, k, aux);
        aux := WalkOn(s, ring, why, k, aux);
        k := k + 1;
      }
      AtEnd(s, ring, why, k, aux);
      assert walk[..k + 1] == walk;
      WakeNext(s, ring, why, k);
      WakeOne(ring, why, aux);
    }

    // ---------------------------------------------------------------- scheduling

    /** How the scheduler's scans step along the ready ring. */
    lemma ReadyStep(k: nat, aux: Task)
      requires Valid() && k < |model.rings[READY_RING]| && aux == model.rings[READY_RING][k]
      ensures rings[READY_RING].head != null
      ensures aux == rings[READY_RING].head.prev <==> k + 1 == |model.rings[READY_RING]|
      ensures k + 1 < |model.rings[READY_RING]| ==> aux.next == model.rings[READY_RING][k + 1]
    {}

    /** The scan for the first task of least dynamic priority. */
    method FindNext() returns (next: Node?<Tcb>)
      requires Valid()
      ensures next == null <==> model.rings[READY_RING] == []
      ensures next != null ==> next == Choose(model.rings[READY_RING], model.tcb)
    {
      ghost var ready := model.rings[READY_RING];
      if rings[READY_RING].head == null {
        return null;
      }
      var aux: Task := rings[READY_RING].head;
      var best: Task := rings[READY_RING].head;
      ghost var k := 0;
      assert best == Choose(ready[..1], model.tcb);
      while aux != rings[READY_RING].head.prev
        invariant k < |ready| && aux == ready[k] && rings[READY_RING].head != null
        invariant best in ready && best == Choose(if k == 0 then ready[..1] else ready[..k], model.tcb)
        decreases |ready| - k
      {
        ReadyStep(k, aux);
        if 0 < k {
          ChooseNext(ready, model.tcb, k);
        }
        if aux.item.dynamicPriority < best.item.dynamicPriority {
          best := aux;
        }
        aux := aux.next;
        k := k + 1;
      }
      ReadyStep(k, aux);
      assert ready[..k + 1] == ready;
      if 0 < k {
        ChooseNext(ready, model.tcb, k);
      }
      if aux.item.dynamicPriority < best.item.dynamicPriority {
        best := aux;
      }
      next := best;
    }

    method AgeOne(ghost s: State<Task>, ghost k: nat, aux: Task)
      requires Valid() && READY_RING < |s.rings| && k < |s.rings[READY_RING]| && aux == s.rings[READY_RING][k]
      requires s.tcb.Keys == model.tcb.Keys && model == s.(tcb := Aged(s.rings[READY_RING][..k], s.tcb))
      modifies this`model, aux`item
      ensures Valid() && model == s.(tcb := Aged(s.rings[READY_RING][..k + 1], s.tcb))
    {
      AgedNext(s.rings[READY_RING], s.tcb, k);
      SetItem(aux, aux.item.(dynamicPriority := aux.item.dynamicPriority + ALPHA));
    }

    /** The scan that makes every ready task one step more urgent. */
    method AgeReady()
      requires Valid()
      modifies this`model, model.tcb.Keys`item
      ensures Valid() && model == old(model).(tcb := Aged(old(model).rings[READY_RING], old(model).tcb))
    {
      ghost var s := model;
      ghost var ready := s.rings[READY_RING];
      assert ready[..0] == [] && Aged([], s.tcb) == s.tcb;
      if rings[READY_RING].head == null {
        return;
      }
      var aux: Task := rings[READY_RING].head;
      ghost var k := 0;
      while aux != rings[READY_RING].head.prev
        invariant k < |ready| && aux == ready[k] && rings[READY_RING].head != null
        invariant Valid() && model == s.(tcb := Aged(ready[..k], s.tcb))
        decreases |ready| - k
      {
        ReadyStep(k, aux);
        AgeOne(s, k, aux);
        aux := aux.next;
        k := k + 1;
      }
      ReadyStep(k, aux);
      AgeOne(s, k, aux);
      assert ready[..k + 1] == ready;
    }

    method Scheduler() returns (next: Node?<Tcb>)
      requires Valid()
      modifies this`model, model.tcb.Keys`item
      ensures Valid()
      ensures next == null <==> old(model).rings[READY_RING] == []
      ensures next == null ==> model == old(model)
      ensures next != null ==>
                && next == Choose(old(model).rings[READY_RING], old(model).tcb)
                && model == old(model).(tcb := Scheduled(old(model).rings[READY_RING], old(model).tcb))
    {
      next := FindNext();
      assert model.rings[READY_RING] == [] ==> Aged([], model.tcb) == model.tcb;
      AgeReady();
      if next != null {
        SetItem(next, next.item.(dynamicPriority := next.item.staticPriority));
      }
    }

    method WakeTasks()
      requires Valid()
      modifies this`model, rings, model.tcb.Keys
      ensures Valid() && model == KernelSpec.WakeTasks(old(model))
    {
      WakeAll(SLEEPING_RING, Alarm(sysclock));
    }

    /** One round of the dispatcher loop, up to the switch to the chosen task. */
    method Dispatch()
      requires Valid()
      modifies this`model, this`curr, rings, model.tcb.Keys
      ensures Valid() && model == KernelSpec.Dispatch(old(model))
    {
      WakeTasks();
      var next := Scheduler();
      if next != null {
        Activate(next);
        TaskSwitch(next);
      }
    }

    method Activate(next: Task)
      requires Valid() && next in model.tcb
      modifies this`model, model.tcb.Keys`item
      ensures Valid() && model == Activated(old(model), next)
    {
      SetItem(dispatcher, dispatcher.item.(activations := dispatcher.item.activations + 1));
      SetItem(next, next.item.(activations := next.item.activations + 1, quantum := 0));
    }

    // ---------------------------------------------------------------- the calls

    /** Filling in a descriptor that no ring holds disturbs neither rings nor records. */
    twostate lemma NewcomerFits(new t: Task)
      requires old(Valid()) && t !in old(model.tcb)
      requires forall x: Task :: x in old(model.tcb) ==> unchanged(x)
      requires rings == old(rings) && forall i :: 0 <= i < |rings| ==> unchanged(rings[i])
      requires sems == old(sems) && curr == old(curr) && userTasksNum == old(userTasksNum) && sysclock == old(sysclock)
      requires lastTaskId == old(lastTaskId) + 1 && model == KernelSpec.Register(old(model), t)
      requires t.item == NewTcb(lastTaskId) && t.prev == null && t.next == null
      requires driver != t ==> driver.item == old(driver.item)
      ensures Valid()
    {
      NewcomerIsLoose(old(model), t);
      forall i | 0 <= i < |rings|
        ensures rings[i].elems == model.rings[i] && rings[i].Valid()
      {
        RingFrame(rings[i]);
      }
    }

    method Register(t: Task)
      requires Valid() && t !in model.tcb
      modifies this`model, this`lastTaskId, t
      ensures Valid() && model == KernelSpec.Register(old(model), t)
    {
      lastTaskId := lastTaskId + 1;
      t.item := NewTcb(lastTaskId);
      t.prev, t.next := null, null;
      model := KernelSpec.Register(model, t);
      NewcomerFits(t);
    }

    /** user_tasks_num goes up or down. */
    method Recount(change: int)
      requires Valid()
      modifies this`model, this`userTasksNum
      ensures Valid() && model == old(model).(userTasks := old(model).userTasks + change)
    {
      userTasksNum := userTasksNum + change;
      model := model.(userTasks := model.userTasks + change);
    }

    method TaskInit(t: Task) returns (id: int)
      requires Valid() && t !in model.tcb
      modifies this, rings, model.tcb.Keys, t
      ensures Valid() && model == KernelSpec.TaskInit(old(model), t) && id == model.tcb[t].id
    {
      Register(t);
      Enqueue(READY_RING, t);
      Recount(1);
      if t.item.id == driver.item.id {
        Recount(-1);
      }
      id := t.item.id;
    }

    /** The part of task_wait before the caller is switched out; -1 when there is nothing to wait for. */
    method TaskWait(target: Node?<Tcb>) returns (code: int)
      requires Valid() && (target != null ==> target in model.tcb)
      modifies this`model, this`curr, rings, model.tcb.Keys
      ensures Valid() && model == (if target == null then old(model) else KernelSpec.TaskWait(old(model), target))
      ensures code == (if target == null || old(model).tcb[target].status == Terminated then -1 else 0)
    {
      if target == null || target.item.status == Terminated {
        return -1;
      }
      SetItem(curr, curr.item.(waitingTask := target.item.id));
      assert model == SetWaiting(old(model), old(target.item.id));
      TaskSuspend(SUSPENDED_RING);
      return 0;
    }

    method TaskSleep(d: int)
      requires Valid()
      modifies this`model, this`curr, rings, model.tcb.Keys
      ensures Valid() && model == KernelSpec.TaskSleep(old(model), d)
    {
      SetItem(curr, curr.item.(wakeUpTime := sysclock + d));
      assert model == SetAlarm(old(model), d);
      TaskSuspend(SLEEPING_RING);
    }

    method Retire()
      requires Valid()
      modifies this`model, this`curr, this`userTasksNum, rings, model.tcb.Keys
      ensures Valid() && model == KernelSpec.Retire(old(model))
    {
      Dequeue(READY_RING, curr);
      userTasksNum := userTasksNum - 1;
      curr := dispatcher;
      model := model.(userTasks := userTasksNum, curr := dispatcher);
    }

    /** The part of task_exit that every task goes through. */
    method Announce(code: int) returns (dispatcherExits: bool)
      requires Valid()
      modifies this`model, rings, model.tcb.Keys
      ensures Valid() && model == Announced(old(model), code) && curr == old(curr)
      ensures dispatcherExits <==> old(curr.item.id) == DISPATCHER_PID
    {
      SetItem(curr, curr.item.(status := Terminated, exitCode := code));
      ghost var marked := model;
      assert marked == Exiting(old(model), code);
      WalkKeepsId(marked, SUSPENDED_RING, Exited(curr.item.id), curr);
      WakeAll(SUSPENDED_RING, Exited(curr.item.id));
      dispatcherExits := curr.item.id == DISPATCHER_PID;
    }

    /** task_exit; true means that the dispatcher has exited, which ends the program. */
    method TaskExit(code: int) returns (ended: bool)
      requires Valid()
      modifies this`model, this`curr, this`userTasksNum, rings, model.tcb.Keys
      ensures Valid() && (ended <==> old(curr.item.id) == DISPATCHER_PID)
      ensures model == if ended then Announced(old(model), code) else KernelSpec.TaskExit(old(model), code)
    {
      ended := Announce(code);
      if !ended {
        Retire();
      }
    }

    /** A fresh empty queue becomes one more ring of the kernel. */
    method AddQueue() returns (queue: Queue<Tcb>)
      requires Valid()
      modifies this`rings
      ensures rings == old(rings) + [queue] && NoDuplicates(rings)
      ensures fresh(queue) && queue.Valid() && queue.elems == []
    {
      queue := new Queue<Tcb>();
      AppendNew(rings, queue);
      rings := rings + [queue];
    }

    /** One more empty ring, with its semaphore, disturbs none of the others. */
    twostate lemma NewRingFits(new queue: Queue<Tcb>, value: int)
      requires old(Valid()) && rings == old(rings) + [queue] && NoDuplicates(rings)
      requires queue.Valid() && queue.elems == []
      requires forall i :: 0 <= i < |old(rings)| ==> unchanged(old(rings[i]))
      requires forall x: Task :: x in old(model.tcb) ==> unchanged(x)
      requires driver.item == old(driver.item)
      requires curr == old(curr) && userTasksNum == old(userTasksNum)
      requires sysclock == old(sysclock) && lastTaskId == old(lastTaskId)
      requires sems == old(sems) + [Sem(value, true)] && model == KernelSpec.SemInit(old(model), value)
      ensures Valid()
    {
      AddRing(old(model).rings);
      forall i | 0 <= i < |old(rings)|
        ensures rings[i].elems == model.rings[i] && rings[i].Valid()
      {
        RingFrame(old(rings[i]));
      }
    }

    method SemInit(value: int) returns (k: nat)
      requires Valid()
      modifies this
      ensures Valid() && model == KernelSpec.SemInit(old(model), value) && k == |old(sems)|
    {
      k := |sems|;
      var queue := AddQueue();
      sems := sems + [Sem(value, true)];
      model := KernelSpec.SemInit(model, value);
      NewRingFits(queue, value);
    }

    method SetSem(k: nat, sem: Sem)
      requires Valid() && k < |sems|
      modifies this`model, this`sems
      ensures Valid() && model == KernelSpec.SetSem(old(model), k, sem)
    {
      sems := sems[k := sem];
      model := KernelSpec.SetSem(model, k, sem);
    }

    method SemDown(k: nat) returns (code: int)
      requires Valid() && k < |sems|
      modifies this`model, this`curr, this`sems, rings, model.tcb.Keys
      ensures Valid() && model == KernelSpec.SemDown(old(model), k)
      ensures code == (if old(sems)[k].active then 0 else -1)
    {
      if !sems[k].active {
        return -1;
      }
      var v := sems[k].value - 1;
      SetSem(k, Sem(v, true));
      if v < 0 {
        TaskSuspend(FIRST_SEM_RING + k);
      }
      return 0;
    }

    method SemUp(k: nat) returns (code: int)
      requires Valid() && k < |sems|
      modifies this`model, this`sems, rings, model.tcb.Keys
      ensures Valid() && model == KernelSpec.SemUp(old(model), k)
      ensures code == (if old(sems)[k].active then 0 else -1)
    {
      if !sems[k].active {
        return -1;
      }
      var v := sems[k].value + 1;
      SetSem(k, Sem(v, true));
      if v <= 0 && rings[FIRST_SEM_RING + k].head != null {
        TaskResume(rings[FIRST_SEM_RING + k].head, FIRST_SEM_RING + k);
      }
      return 0;
    }

    method SemDestroy(k: nat) returns (code: int)
      requires Valid() && k < |sems|
      modifies this`model, this`sems, rings, model.tcb.Keys
      ensures Valid() && model == KernelSpec.SemDestroy(old(model), k)
      ensures code == (if old(sems)[k].active then 0 else -1)
    {
      code := -1;
      if sems[k].active {
        Deactivate(k);
        code := 0;
      }
    }

    /** The flag goes down and every sleeper is released. */
    method Deactivate(k: nat)
      requires Valid() && k < |sems|
      modifies this`model, this`sems, rings, model.tcb.Keys
      ensures Valid()
      ensures model == KernelSpec.ReleaseAll(KernelSpec.SetSem(old(model), k, old(model).sems[k].(active := false)),
                                             FIRST_SEM_RING + k)
    {
      SetSem(k, sems[k].(active := false));
      ReleaseAll(FIRST_SEM_RING + k);
    }

    method ReleaseAll(ring: nat)
      requires Valid() && READY_RING < ring < |rings|
      modifies this`model, rings, model.tcb.Keys
      ensures Valid() && model == KernelSpec.ReleaseAll(old(model), ring)
    {
      ghost var s := model;
      while rings[ring].head != null
        invariant Valid() && rings == old(rings) && model.tcb.Keys == s.tcb.Keys
        invariant KernelSpec.ReleaseAll(model, ring) == KernelSpec.ReleaseAll(s, ring)
        decreases |model.rings[ring]|
      {
        ReleaseShrinks(model, ring);
        TaskResume(rings[ring].head, ring);
      }
    }

    method SetPrio(t: Node?<Tcb>, prio: int)
      requires Valid() && (t != null ==> t in model.tcb)
      modifies this`model, model.tcb.Keys`item
      ensures Valid() && model == KernelSpec.SetPrio(old(model), if t == null then curr else t, prio)
    {
      var task := if t == null then curr else t;
      SetItem(task, task.item.(staticPriority := prio, dynamicPriority := prio));
    }

    method AdvanceClock()
      requires Valid()
      modifies this`model, this`sysclock
      ensures Valid() && model == old(model).(clock := old(model).clock + 1)
    {
      sysclock := sysclock + 1;
      model := model.(clock := model.clock + 1);
    }

    method CountTick() returns (expired: bool)
      requires Valid()
      modifies this`model, this`sysclock, model.tcb.Keys`item
      ensures Valid() && model == KernelSpec.CountTick(old(model))
      ensures expired <==> old(curr.item.quantum) + 1 == QUANTUM_LIMIT
    {
      AdvanceClock();
      SetItem(curr, curr.item.(quantum := curr.item.quantum + 1));
      expired := curr.item.quantum == QUANTUM_LIMIT;
      if expired {
        SetItem(curr, curr.item.(quantum := 0));
      }
    }

    /** interruption_handler. */
    method Tick()
      requires Valid()
      modifies this`model, this`curr, this`sysclock, model.tcb.Keys`item
      ensures Valid() && model == KernelSpec.Tick(old(model))
    {
      var expired := CountTick();
      if expired {
        TaskYield();
      }
    }
  }
}
