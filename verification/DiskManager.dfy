/** The disk manager over the linked kernel, each routine proved against KernelDisk.Next. */
module DiskManagers {
  import opened Queues
  import opened KernelSpec
  import opened Kernels
  import opened KernelDisk
  import opened DiskDevices

  class DiskManager<B> {
    const kernel: Kernel
    const device: DiskDevice<B>
    const requests: Queue<D.Request<Task>>
    var signal: bool
    var memory: map<Address, B>
    var numBlocks: int
    var blockSize: int

    ghost var io: D.Io<Task, B>

    ghost function Value(): Machine<Task, B>
      reads this, kernel
    {
      Machine(kernel.model, io)
    }

    ghost predicate Valid()
      reads this, kernel, kernel.rings, kernel.model.tcb.Keys, kernel.driver, device, requests, requests.elems
    {
      && kernel.Valid()
      && IoMatches()
    }

    ghost predicate IoMatches()
      reads this, device, requests, requests.elems
    {
      && device.Valid() && device.Value() == io.device
      && requests.Valid() && Contents(requests.elems, io.requests)
      && io.signal == signal && io.memory == memory
    }

    ghost predicate Contents(cells: seq<Node<D.Request<Task>>>, requests: seq<D.Request<Task>>)
      reads cells
    {
      |cells| == |requests| && forall i :: 0 <= i < |cells| ==> cells[i].item == requests[i]
    }

    /** The records before disk_mgr_init. */
    constructor (kernel: Kernel, blocks: seq<B>, memory: map<Address, B>)
      requires kernel.Valid() && |blocks| >= 1
      ensures this.kernel == kernel && fresh(device) && fresh(requests)
      ensures Valid() && Value() == Machine(kernel.model, D.Fresh(blocks, memory))
    {
      this.kernel := kernel;
      device := new DiskDevice<B>(blocks);
      requests := new Queue<D.Request<Task>>();
      signal, this.memory, numBlocks, blockSize := false, memory, 0, 0;
      io := D.Fresh(blocks, memory);
    }

    /** disk_mgr_init's calls of disk_cmd: -1 when the device has been initialised before. */
    method InitDevice() returns (code: int)
      requires IoMatches()
      modifies this`io, this`numBlocks, this`blockSize, device
      ensures IoMatches() && code == (if old(io.device.status) == DISK_STATUS_UNKNOWN then 0 else -1)
      ensures io == if code == 0 then D.Initialised(old(io)) else old(io)
      ensures code == 0 ==> numBlocks == |io.device.blocks| && blockSize == DISK_BLOCK_SIZE
      ensures code != 0 ==> numBlocks == old(numBlocks) && blockSize == old(blockSize)
    {
      code := device.Cmd(DISK_CMD_INIT, 0, NULL, 0);
      if code == 0 {
        numBlocks := device.Cmd(DISK_CMD_DISKSIZE, 0, NULL, 0);
        blockSize := device.Cmd(DISK_CMD_BLOCKSIZE, 0, NULL, 0);
        io := D.Initialised(io);
      }
    }

    method StartDriver()
      requires Valid() && kernel.driver !in kernel.model.tcb
      modifies kernel, kernel.rings, kernel.model.tcb.Keys, kernel.driver
      ensures Valid() && kernel.model == TaskInit(old(kernel.model), kernel.driver)
    {
      var _ := kernel.TaskInit(kernel.driver);
      IoStays();
    }

    /** disk_mgr_init: initialise the device, hand out its sizes, and start the driver task. */
    method MgrInit() returns (code: int)
      requires Valid() && (device.status == DISK_STATUS_UNKNOWN ==> kernel.driver !in kernel.model.tcb)
      modifies this`io, this`numBlocks, this`blockSize, device
      modifies kernel, kernel.rings, kernel.model.tcb.Keys, kernel.driver
      ensures Valid() && code == (if old(device.status) == DISK_STATUS_UNKNOWN then 0 else -1)
      ensures code == 0 ==> numBlocks == |io.device.blocks| && blockSize == DISK_BLOCK_SIZE
      ensures kernel.model == if code == 0 then TaskInit(old(kernel.model), kernel.driver) else old(kernel.model)
      ensures io == if code == 0 then D.Initialised(old(io)) else old(io)
    {
      code := InitDevice();
      KernelStays();
      if code == 0 {
        StartDriver();
      }
    }

    /** What writes neither the kernel nor its tasks leaves the kernel valid. */
    twostate lemma KernelStays()
      requires unchanged(kernel) && unchanged(kernel.rings) && unchanged(kernel.model.tcb.Keys) && unchanged(kernel.driver)
      ensures old(kernel.Valid()) ==> kernel.Valid()
    {}

    /** What writes neither the record nor the device leaves the record in place. */
    twostate lemma IoStays()
      requires unchanged(this) && unchanged(device) && unchanged(requests) && unchanged(requests.elems)
      ensures old(IoMatches()) ==> IoMatches()
    {}

    // ------------------------------------------------------------ the manager's own record

    /** A new cell at the tail of request_queue. */
    method AddRequest(request: D.Request<Task>)
      requires IoMatches() && (request.buffer == NULL || request.buffer in memory)
      modifies this`io, requests, requests.elems
      ensures IoMatches() && io == D.Requested(old(io), request)
    {
      var cell := new Node<D.Request<Task>>(request);
      var _ := Append(requests, cell);
      assert Contents(requests.elems, io.requests + [request]);
      io := D.Requested(io, request);
    }

    method ClearSignal(ghost first: Task)
      requires IoMatches()
      modifies this`io, this`signal
      ensures IoMatches() && io == D.Returned(old(io), first)
    {
      io := D.Returned(io, first);
      signal := false;
    }

    /** The oldest request leaves request_queue. */
    method TakeRequest() returns (request: D.Request<Task>)
      requires IoMatches() && io.requests != []
      modifies this`io, requests, requests.elems`prev, requests.elems`next
      ensures IoMatches() && request == old(io.requests)[0] && io == old(io).(requests := old(io.requests)[1..])
    {
      request := requests.head.item;
      RemoveFirst(requests);
      assert Contents(requests.elems, io.requests[1..]);
      io := io.(requests := io.requests[1..]);
    }

    method Command(request: D.Request<Task>, rand: nat)
      requires IoMatches()
      modifies this`io, device
      ensures IoMatches()
      ensures io == old(io).(device := After(old(io.device), D.CommandFor(request.op), request.block, request.buffer))
    {
      var _ := device.Cmd(D.CommandFor(request.op), request.block, request.buffer, rand);
      io := io.(device := After(io.device, D.CommandFor(request.op), request.block, request.buffer));
    }

    /** The oldest request goes to an idle device. */
    method Serve(rand: nat)
      requires IoMatches()
      modifies this`io, device, requests, requests.elems`prev, requests.elems`next
      ensures IoMatches() && io == D.Serve(old(io))
    {
      var status := device.Cmd(DISK_CMD_STATUS, 0, NULL, rand);
      var waiting := QueueSize(requests);
      if status == DISK_STATUS_IDLE && waiting > 0 {
        var request := TakeRequest();
        Command(request, rand);
      }
    }

    /** The transfer, and the flag disk_signal_handler sets. */
    method Transfer()
      requires IoMatches() && Busy(io.device) && io.device.buffer in memory
      modifies this`io, this`signal, this`memory, device
      ensures IoMatches() && io == D.Completed(old(io))
    {
      var ok, after := device.SigHandle(memory);
      memory := after;
      signal := true;
      io := D.Completed(io);
    }

    // ------------------------------------------------------------ the kernel calls

    /** The running task goes to sleep in disk_queue. */
    method Sleep()
      requires Valid()
      modifies kernel`model, kernel`curr, kernel.rings, kernel.model.tcb.Keys
      ensures Valid() && kernel.model == TaskSuspend(old(kernel.model), DISK_RING)
    {
      kernel.TaskSuspend(DISK_RING);
      IoStays();
    }

    method Ready(t: Task)
      requires Valid() && t in kernel.model.tcb
      modifies kernel`model, kernel.rings, kernel.model.tcb.Keys
      ensures Valid() && kernel.model == TaskResume(old(kernel.model), t, DISK_RING)
      ensures kernel.model.tcb.Keys == old(kernel.model.tcb.Keys)
    {
      kernel.TaskResume(t, DISK_RING);
      IoStays();
    }

    /** Wake the driver if its status says it sleeps, then sleep in disk_queue. */
    method BlockClient()
      requires Valid() && kernel.driver in kernel.model.tcb
      modifies kernel`model, kernel`curr, kernel.rings, kernel.model.tcb.Keys
      ensures Valid() && kernel.model == ClientBlocks(old(kernel.model))
    {
      if kernel.driver.item.status == Suspended {
        Ready(kernel.driver);
      }
      Sleep();
    }

    // ------------------------------------------------------------ the routines

    /** disk_block_op: queue a request and wait for it. */
    method BlockOp(block: int, buffer: Address, op: D.Operation) returns (code: int)
      requires Valid() && Legal(Value(), KernelDisk.BlockOp(block, buffer, op))
      modifies this`io, requests, requests.elems
      modifies kernel`model, kernel`curr, kernel.rings, kernel.model.tcb.Keys
      ensures Valid() && Value() == KernelDisk.Next(old(Value()), KernelDisk.BlockOp(block, buffer, op))
      ensures io.requests == old(io.requests) + [D.Request(old(kernel.curr), block, buffer, op)] && code == 0
    {
      AddRequest(D.Request(kernel.curr, block, buffer, op));
      KernelStays();
      BlockClient();
      return 0;
    }

    /** The driver answers a signal by readying the first task of disk_queue. */
    method Acknowledge()
      requires Valid() && (signal ==> kernel.model.rings[DISK_RING] != [])
      modifies this`io, this`signal, kernel`model, kernel.rings, kernel.model.tcb.Keys
      ensures Valid() && kernel.model.tcb.Keys == old(kernel.model.tcb.Keys)
      ensures kernel.model == FirstResumed(old(kernel.model), old(signal))
      ensures io == D.SignalHandled(old(io), old(kernel.model.rings[DISK_RING]))
    {
      if signal {
        assert kernel.rings[DISK_RING].Valid();
        var first := kernel.rings[DISK_RING].head;
        Ready(first);
        label readied:
        ClearSignal(first);
        KernelStays@readied();
      }
    }

    method ServeDevice(rand: nat)
      requires Valid()
      modifies this`io, device, requests, requests.elems`prev, requests.elems`next
      ensures Valid() && kernel.model == old(kernel.model) && io == D.Serve(old(io))
    {
      Serve(rand);
      KernelStays();
    }

    /** What the driver does while it is awake. */
    method Attend(rand: nat)
      requires Valid() && (signal ==> kernel.model.rings[DISK_RING] != [])
      modifies this`io, this`signal, device, requests, requests.elems`prev, requests.elems`next
      modifies kernel`model, kernel.rings, kernel.model.tcb.Keys
      ensures Valid() && kernel.model.tcb.Keys == old(kernel.model.tcb.Keys)
      ensures kernel.model == FirstResumed(old(kernel.model), old(signal))
      ensures io == D.Serve(D.SignalHandled(old(io), old(kernel.model.rings[DISK_RING])))
    {
      Acknowledge();
      ServeDevice(rand);
    }

    /** One turn of disk_driver's loop, by what it does to the kernel and to the record. */
    method WakeAndServe(rand: nat)
      requires Valid() && (signal ==> kernel.model.rings[DISK_RING] != [])
      modifies this`io, this`signal, device, requests, requests.elems
      modifies kernel`model, kernel`curr, kernel.rings, kernel.model.tcb.Keys
      ensures Valid() && kernel.model == TaskSuspend(FirstResumed(old(kernel.model), old(signal)), DISK_RING)
      ensures io == D.Serve(D.SignalHandled(old(io), old(kernel.model.rings[DISK_RING])))
    {
      Attend(rand);
      Sleep();
    }

    /** One turn of disk_driver's loop. */
    method DriverTurn(rand: nat)
      requires Valid() && Legal(Value(), KernelDisk.DriverTurn)
      requires signal ==> kernel.model.rings[DISK_RING] != []
      modifies this`io, this`signal, device, requests, requests.elems
      modifies kernel`model, kernel`curr, kernel.rings, kernel.model.tcb.Keys
      ensures Valid() && Value() == KernelDisk.Next(old(Value()), KernelDisk.DriverTurn)
    {
      WakeAndServe(rand);
    }

    /** In every reachable state the turn is safe: a signal always finds its client at the head of disk_queue. */
    method SafeTurn(rand: nat)
      requires Valid() && Inv(Value()) && Legal(Value(), KernelDisk.DriverTurn)
      modifies this`io, this`signal, device, requests, requests.elems
      modifies kernel`model, kernel`curr, kernel.rings, kernel.model.tcb.Keys
      ensures Valid() && Inv(Value()) && Value() == KernelDisk.Next(old(Value()), KernelDisk.DriverTurn)
    {
      SignalHasClient(Value());
      MoveKeepsInv(Value(), KernelDisk.DriverTurn, KernelDisk.Next(Value(), KernelDisk.DriverTurn));
      DriverTurn(rand);
    }

    /** disk_sighandle, the signal it raises, and disk_signal_handler. */
    method Completion()
      requires Valid() && Legal(Value(), KernelDisk.Completion)
      modifies this`io, this`signal, this`memory, device
      modifies kernel`model, kernel.rings, kernel.model.tcb.Keys
      ensures Valid() && Value() == KernelDisk.Next(old(Value()), KernelDisk.Completion)
    {
      Transfer();
      KernelStays();
      Ready(kernel.driver);
    }
  }
}
