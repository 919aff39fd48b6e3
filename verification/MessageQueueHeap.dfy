/** The message queue over its linked buffer: each step of a call proved against MessageQueues.Next. */
module MessageQueueHeap {
  import opened Queues
  import opened MessageQueues
  import opened MessageQueueTheorems

  class MessageQueue<M> {
    var maxMsgs: int
    var active: bool
    var vaga: S.Semaphore<Tid>
    var lock: S.Semaphore<Tid>
    var item: S.Semaphore<Tid>
    const buffer: Queue<M>

    // the calling tasks' own variables: where each one stands, its message, its last return code
    var pcs: seq<Pc>
    var arg: seq<M>
    var ret: seq<int>

    ghost var model: State<M>

    ghost predicate Valid()
      reads this, buffer, buffer.elems
    {
      && Shape(model) && !model.fault
      && buffer.Valid()
      && Contents(buffer.elems, model.msgs)
      && model.capacity == maxMsgs && model.active == active
      && model.vaga == vaga && model.lock == lock && model.item == item
      && model.pcs == pcs && model.arg == arg && model.ret == ret
    }

    ghost predicate Contents(cells: seq<Node<M>>, msgs: seq<M>)
      reads cells
    {
      |cells| == |msgs| && forall i :: 0 <= i < |cells| ==> cells[i].item == msgs[i]
    }

    /** mqueue_init, for tasks whose message variables hold arg. */
    constructor (max: int, arg: seq<M>)
      ensures Valid() && fresh(buffer) && model == Init(max, arg)
    {
      maxMsgs, active := max, true;
      vaga, lock, item := S.Init(max), S.Init(1), S.Init(0);
      buffer := new Queue<M>();
      pcs, this.arg, ret := seq(|arg|, _ => Idle), arg, seq(|arg|, _ => 0);
      model := Init(max, arg);
    }

    /** mqueue_send and mqueue_recv up to their first semaphore call. */
    method BeginSend(t: Tid, m: M)
      requires Valid() && Legal(model, CallSend(t, m))
      modifies this
      ensures Valid() && model == Next(old(model), CallSend(t, m))
      ensures if old(active) then pcs == old(pcs)[t := SendVaga] && arg == old(arg)[t := m] && ret == old(ret)
              else pcs == old(pcs) && arg == old(arg) && ret == old(ret)[t := -1]
    {
      model := Next(model, CallSend(t, m));
      if !active {
        ret, pcs := ret[t := -1], pcs[t := Idle];
        return;
      }
      arg, pcs := arg[t := m], pcs[t := SendVaga];
    }

    method BeginRecv(t: Tid)
      requires Valid() && Legal(model, CallRecv(t))
      modifies this
      ensures Valid() && model == Next(old(model), CallRecv(t))
      ensures if old(active) then pcs == old(pcs)[t := RecvItem] && ret == old(ret) else pcs == old(pcs) && ret == old(ret)[t := -1]
    {
      model := Next(model, CallRecv(t));
      if !active {
        ret, pcs := ret[t := -1], pcs[t := Idle];
        return;
      }
      pcs := pcs[t := RecvItem];
    }

    /** A sender's semaphore calls, in the order of the source. */
    method SendSemaphoreStep(t: Tid)
      requires Valid() && Legal(model, Go(t))
      requires pcs[t] == SendVaga || pcs[t] == SendBuffer || pcs[t] == SendUnlock || pcs[t] == SendItem
      modifies this
      ensures Valid() && model == Next(old(model), Go(t))
      ensures old(pcs)[t] == SendItem ==> pcs[t] == Idle && ret == old(ret)[t := 0]
    {
      model := Next(model, Go(t));
      match pcs[t]
      case SendVaga => vaga, pcs := S.Apply(vaga, S.Down(t)), pcs[t := SendBuffer];
      case SendBuffer => lock, pcs := S.Apply(lock, S.Down(t)), pcs[t := SendPut];
      case SendUnlock => lock, pcs := S.Apply(lock, S.Up), pcs[t := SendItem];
      case SendItem => item, ret, pcs := S.Apply(item, S.Up), ret[t := 0], pcs[t := Idle];
    }

    /** A receiver's. */
    method RecvSemaphoreStep(t: Tid)
      requires Valid() && Legal(model, Go(t))
      requires pcs[t] == RecvItem || pcs[t] == RecvBuffer || pcs[t] == RecvUnlock || pcs[t] == RecvVaga
      modifies this
      ensures Valid() && model == Next(old(model), Go(t))
      ensures old(pcs)[t] == RecvVaga ==> pcs[t] == Idle && ret == old(ret)[t := 0]
    {
      model := Next(model, Go(t));
      match pcs[t]
      case RecvItem => item, pcs := S.Apply(item, S.Down(t)), pcs[t := RecvBuffer];
      case RecvBuffer => lock, pcs := S.Apply(lock, S.Down(t)), pcs[t := RecvTake];
      case RecvUnlock => lock, pcs := S.Apply(lock, S.Up), pcs[t := RecvVaga];
      case RecvVaga => vaga, ret, pcs := S.Apply(vaga, S.Up), ret[t := 0], pcs[t := Idle];
    }

    /** A new cell holding the message goes to the tail of the buffer. */
    method AppendMessage(m: M, ghost msgs: seq<M>)
      requires buffer.Valid() && Contents(buffer.elems, msgs)
      modifies buffer, buffer.elems`prev, buffer.elems`next
      ensures buffer.Valid() && Contents(buffer.elems, msgs + [m])
      ensures forall c :: c in buffer.elems ==> c in old(buffer.elems) || fresh(c)
    {
      var cell := new Node<M>(m);
      var _ := Append(buffer, cell);
    }

    /** A sender inside the section: append a cell holding its message. */
    method PutStep(t: Tid)
      requires Valid() && Legal(model, Go(t)) && pcs[t] == SendPut
      modifies this, buffer, buffer.elems
      ensures Valid() && model == Next(old(model), Go(t))
    {
      model := Next(model, Go(t));
      if !active {
        ret, pcs := ret[t := -1], pcs[t := Idle];
        return;
      }
      AppendMessage(arg[t], old(model).msgs);
      pcs := pcs[t := SendUnlock];
    }

    /** A receiver inside the section: it finds a cell at the head, copies the message and unlinks the cell. */
    method TakeStep(t: Tid)
      requires Valid() && Legal(model, Go(t)) && pcs[t] == RecvTake && (active ==> model.msgs != [])
      modifies this, buffer, buffer.elems
      ensures Valid() && model == Next(old(model), Go(t))
    {
      if !active {
        model := Next(model, Go(t));
        ret, pcs := ret[t := -1], pcs[t := Idle];
        return;
      }
      model := Next(model, Go(t));
      arg := arg[t := buffer.head.item];
      RemoveFirst(buffer);
      pcs := pcs[t := RecvUnlock];
    }

    /** Any step of any call: in a state reached from mqueue_init no receiver meets a null buffer. */
    method Step(t: Tid)
      requires Valid() && Inv(model) && Legal(model, Go(t))
      modifies this, buffer, buffer.elems
      ensures Valid() && model == Next(old(model), Go(t)) && Inv(model)
    {
      StepKeepsInv(model, Go(t));
      if pcs[t] == SendPut {
        PutStep(t);
      } else if pcs[t] == RecvTake {
        if active {
          ReceiverFindsMessage(model, t);
        }
        TakeStep(t);
      } else if pcs[t] == SendVaga || pcs[t] == SendBuffer || pcs[t] == SendUnlock || pcs[t] == SendItem {
        SendSemaphoreStep(t);
      } else {
        RecvSemaphoreStep(t);
      }
    }

    /** mqueue_destroy: release every sleeper, then unlink what is left in the buffer. */
    method Destroy()
      requires Valid()
      modifies this, buffer, buffer.elems
      ensures Valid() && model == Next(old(model), DestroyQueue)
      ensures buffer.head == null
    {
      lock, item, vaga := S.Apply(lock, S.Destroy), S.Apply(item, S.Destroy), S.Apply(vaga, S.Destroy);
      while buffer.head != null
        invariant buffer.Valid()
        invariant forall i :: 0 <= i < |buffer.elems| ==> buffer.elems[i] in old(buffer.elems)
        decreases |buffer.elems|
        modifies buffer, buffer.elems
      {
        RemoveFirst(buffer);
      }
      active := false;
      model := Next(model, DestroyQueue);
    }
  }
}
