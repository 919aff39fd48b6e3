/**
 * The disk manager as a system of steps: clients queue requests and sleep, the driver task
 * serves them first come first served, the device completes them on its own time.
 */
module DiskSpec {
  import opened Sequences
  import opened DiskDevices

  datatype Operation = READ | WRITE

  datatype Request<T> = Request(tid: T, block: int, buffer: Address, op: Operation)

  /** A request together with what its buffer held when it was made. */
  datatype Submission<T, D> = Submission(request: Request<T>, data: D)

  /** What a returning client finds in its buffer. */
  datatype Outcome<T, D> = Outcome(tid: T, data: D)

  /** The manager's record and the memory, with the history of all requests. */
  datatype Io<T, D> = Io(
    device: Device<D>,
    memory: map<Address, D>,
    requests: seq<Request<T>>,
    signal: bool,
    initial: seq<D>,                     // the blocks before the first request
    submitted: seq<Submission<T, D>>,
    completed: nat,                      // how many transfers the device has carried out
    returned: seq<Outcome<T, D>>,        // the clients readied by the driver, in that order
    fault: bool)                         // the driver followed a null queue pointer

  /** queue is disk_queue; awake tells that the driver is in the ready ring, marked that its status is SUSPENDED. */
  datatype State<T, D> = State(io: Io<T, D>, queue: seq<T>, driver: T, awake: bool, marked: bool)

  datatype Step<T, D> =
    | BlockOp(tid: T, block: int, buffer: Address, op: Operation)
    | Iterate
    | Complete
    | Store(buffer: Address, data: D)
    | Scheduled(marked: bool)

  /** Before anything: the disk file's blocks, and whatever the memory holds. */
  function Fresh<T, D>(blocks: seq<D>, memory: map<Address, D>): Io<T, D> {
    Io(Unknown(blocks), memory, [], false, blocks, [], 0, [], false)
  }

  /** disk_mgr_init: the device has been initialised. */
  function Initialised<T, D>(io: Io<T, D>): Io<T, D> {
    io.(device := After(io.device, DISK_CMD_INIT, 0, NULL))
  }

  function Start<T, D>(blocks: seq<D>, memory: map<Address, D>): Io<T, D> {
    Initialised(Fresh(blocks, memory))
  }

  /** What the steps need in order to happen at all. */
  ghost predicate Enabled<T, D>(s: State<T, D>, a: Step<T, D>) {
    && !s.io.fault
    && match a
       case BlockOp(tid, _, buffer, _) => tid != s.driver && tid !in s.queue && (buffer == NULL || buffer in s.io.memory)
       case Iterate => s.awake
       case Complete => Sound(s.io.device) && Busy(s.io.device) && s.io.device.buffer in s.io.memory
       case Store(buffer, _) => buffer in s.io.memory
       case Scheduled(marked) => s.awake || marked == s.marked
  }

  // ---------------------------------------------------------------- the steps

  /** A new request at the tail of request_queue. */
  function Requested<T, D>(io: Io<T, D>, r: Request<T>): Io<T, D>
    requires r.buffer == NULL || r.buffer in io.memory
  {
    io.(requests := io.requests + [r],
        submitted := if r.buffer in io.memory then io.submitted + [Submission(r, io.memory[r.buffer])] else io.submitted)
  }

  /** task_resume of the driver: harmless when it is ready already. */
  function DriverResumed<T(==), D>(s: State<T, D>): State<T, D> {
    s.(queue := Without(s.queue, s.driver), awake := true, marked := false)
  }

  function Submit<T(==), D>(s: State<T, D>, r: Request<T>): State<T, D>
    requires r.buffer == NULL || r.buffer in s.io.memory
  {
    var s1 := s.(io := Requested(s.io, r));
    var s2 := if s1.marked then DriverResumed(s1) else s1;
    s2.(queue := s2.queue + [r.tid])
  }

  /** The next client returns; what it reads is what its buffer holds now. */
  function Returned<T, D>(io: Io<T, D>, tid: T): Io<T, D> {
    if |io.returned| < |io.submitted| && io.submitted[|io.returned|].request.buffer in io.memory
    then io.(signal := false,
             returned := io.returned + [Outcome(tid, io.memory[io.submitted[|io.returned|].request.buffer])])
    else io.(signal := false)
  }

  /** The driver's answer to a signal readies the first task of disk_queue, which must not be empty. */
  function SignalHandled<T, D>(io: Io<T, D>, queue: seq<T>): Io<T, D> {
    if !io.signal then io else if queue == [] then io.(fault := true) else Returned(io, queue[0])
  }

  function Acknowledge<T, D>(s: State<T, D>): State<T, D> {
    s.(io := SignalHandled(s.io, s.queue), queue := if s.io.signal && s.queue != [] then s.queue[1..] else s.queue)
  }

  function CommandFor(op: Operation): int {
    if op == READ then DISK_CMD_READ else DISK_CMD_WRITE
  }

  /** The oldest request goes to an idle device; a refused one is dropped all the same. */
  function Serve<T, D>(io: Io<T, D>): Io<T, D> {
    if Reply(io.device, DISK_CMD_STATUS, 0, NULL) == DISK_STATUS_IDLE && |io.requests| > 0 then
      var r := io.requests[0];
      io.(requests := io.requests[1..], device := After(io.device, CommandFor(r.op), r.block, r.buffer))
    else io
  }

  /** One turn of the driver's loop, from waking up to going back to sleep. */
  function Turn<T, D>(s: State<T, D>): State<T, D> {
    var s1 := Acknowledge(s);
    s1.(io := Serve(s1.io), queue := s1.queue + [s1.driver], awake := false, marked := true)
  }

  function Completed<T, D>(io: Io<T, D>): Io<T, D>
    requires Sound(io.device) && Busy(io.device) && io.device.buffer in io.memory
  {
    var moved := Transferred(io.device, io.memory);
    io.(device := moved.0, memory := moved.1, completed := io.completed + 1, signal := true)
  }

  function Next<T(==), D>(s: State<T, D>, a: Step<T, D>): State<T, D>
    requires Enabled(s, a)
  {
    match a
    case BlockOp(tid, block, buffer, op) => Submit(s, Request(tid, block, buffer, op))
    case Iterate => Turn(s)
    case Complete => DriverResumed(s.(io := Completed(s.io)))
    case Store(buffer, data) => s.(io := s.io.(memory := s.io.memory[buffer := data]))
    case Scheduled(marked) => s.(marked := marked)
  }

  // ---------------------------------------------------------------- the sequential disk

  /** The blocks after executing the requests one by one. */
  function Exec<T, D>(blocks: seq<D>, subs: seq<Submission<T, D>>): (r: seq<D>)
    ensures |r| == |blocks|
  {
    if subs == [] then blocks
    else
      var before := Exec(blocks, subs[..|subs| - 1]);
      var last := subs[|subs| - 1];
      if last.request.op == WRITE && 0 <= last.request.block < |before|
      then before[last.request.block := last.data]
      else before
  }

  /** What a client must find in its buffer: a reader the block as its predecessors left it, a writer its own data. */
  function Answer<T, D>(blocks: seq<D>, subs: seq<Submission<T, D>>, i: nat): D
    requires i < |subs| && 0 <= subs[i].request.block < |blocks|
  {
    if subs[i].request.op == READ then Exec(blocks, subs[..i])[subs[i].request.block] else subs[i].data
  }

  // ---------------------------------------------------------------- proper use

  /** The request is for a block of the disk and a real buffer. */
  predicate ValidRequest<T, D>(io: Io<T, D>, r: Request<T>) {
    0 <= r.block < |io.device.blocks| && r.buffer != NULL && r.buffer in io.memory
  }

  /** Some unreturned request owns the buffer. */
  ghost predicate InUse<T, D>(io: Io<T, D>, buffer: Address) {
    exists i :: |io.returned| <= i < |io.submitted| && io.submitted[i].request.buffer == buffer
  }

  ghost predicate BeingRead<T, D>(io: Io<T, D>, buffer: Address) {
    exists i :: |io.returned| <= i < |io.submitted|
      && io.submitted[i].request.buffer == buffer && io.submitted[i].request.op == READ
  }

  /** Requests are valid, and nobody touches a buffer while a request that uses it is pending. */
  ghost predicate Proper<T, D>(s: State<T, D>, a: Step<T, D>) {
    match a
    case BlockOp(tid, block, buffer, op) =>
      && ValidRequest(s.io, Request(tid, block, buffer, op))
      && (if op == READ then !InUse(s.io, buffer) else !BeingRead(s.io, buffer))
    case Store(buffer, _) => !InUse(s.io, buffer)
    case _ => true
  }

  // ---------------------------------------------------------------- the invariant

  function Requests<T, D>(subs: seq<Submission<T, D>>): (r: seq<Request<T>>)
    ensures |r| == |subs|
    ensures forall i :: 0 <= i < |r| ==> r[i] == subs[i].request
  {
    seq(|subs|, i requires 0 <= i < |subs| => subs[i].request)
  }

  function Tids<T, D>(subs: seq<Submission<T, D>>): (r: seq<T>)
    ensures |r| == |subs|
    ensures forall i :: 0 <= i < |r| ==> r[i] == subs[i].request.tid
  {
    seq(|subs|, i requires 0 <= i < |subs| => subs[i].request.tid)
  }

  /** The requests handed to the device: the carried out ones, and the one it is busy with. */
  function Started<T, D>(io: Io<T, D>): nat {
    io.completed + (if Busy(io.device) then 1 else 0)
  }

  ghost predicate Counts<T, D>(io: Io<T, D>) {
    && io.completed == |io.returned| + (if io.signal then 1 else 0)
    && Started(io) <= |io.submitted|
    && (io.signal ==> !Busy(io.device))
    && Requests(io.submitted[Started(io)..]) == io.requests
  }

  /** The device works on the oldest request it has not carried out. */
  ghost predicate DeviceWorks<T, D>(io: Io<T, D>) {
    && Sound(io.device) && io.device.status != DISK_STATUS_UNKNOWN
    && |io.device.blocks| == |io.initial|
    && (Busy(io.device) ==>
          && io.completed < |io.submitted|
          && var r := io.submitted[io.completed].request;
             io.device.nextBlock == r.block && io.device.buffer == r.buffer
             && (io.device.status == DISK_STATUS_READ <==> r.op == READ))
  }

  ghost predicate AllValid<T, D>(io: Io<T, D>) {
    && NULL !in io.memory
    && forall i :: 0 <= i < |io.submitted| ==> ValidRequest(io, io.submitted[i].request)
  }

  /** Two pending requests share a buffer only to write it out. */
  ghost predicate BuffersApart<T, D>(io: Io<T, D>) {
    forall i, j | |io.returned| <= i < j < |io.submitted| &&
        io.submitted[i].request.buffer == io.submitted[j].request.buffer ::
      io.submitted[i].request.op == WRITE && io.submitted[j].request.op == WRITE
  }

  /** What pending buffers hold: a writer's data, and once the device is done also a reader's answer. */
  ghost predicate BuffersHold<T, D>(io: Io<T, D>)
    requires AllValid(io) && DeviceWorks(io)
  {
    && (forall i :: |io.returned| <= i < |io.submitted| && io.submitted[i].request.op == WRITE ==>
          io.memory[io.submitted[i].request.buffer] == io.submitted[i].data)
    && (forall i :: |io.returned| <= i < io.completed && i < |io.submitted| ==>
          io.memory[io.submitted[i].request.buffer] == Answer(io.initial, io.submitted, i))
  }

  ghost predicate Answered<T, D>(io: Io<T, D>)
    requires AllValid(io) && DeviceWorks(io)
  {
    && |io.returned| <= |io.submitted|
    && forall i :: 0 <= i < |io.returned| ==>
         io.returned[i] == Outcome(io.submitted[i].request.tid, Answer(io.initial, io.submitted, i))
  }

  ghost predicate IoInv<T, D>(io: Io<T, D>) {
    && Counts(io) && AllValid(io) && DeviceWorks(io)
    && BuffersApart(io) && BuffersHold(io) && Answered(io)
    && io.completed <= |io.submitted|
    && io.device.blocks == Exec(io.initial, io.submitted[..io.completed])
  }

  /** disk_queue without the driver: the owners of the unreturned requests, in order. */
  ghost predicate QueueLaw<T, D>(s: State<T, D>) {
    && |s.io.returned| <= |s.io.submitted|
    && Without(s.queue, s.driver) == Tids(s.io.submitted[|s.io.returned|..])
    && s.driver !in Tids(s.io.submitted)
    && (s.driver in s.queue <==> !s.awake)
  }

  /** The driver sleeps only while the device works or nothing is left to do, and is then marked as asleep. */
  ghost predicate DriverLaw<T, D>(s: State<T, D>) {
    && (s.io.signal ==> s.awake)
    && (!s.awake ==> s.marked && !s.io.signal && (Busy(s.io.device) || s.io.requests == []))
  }

  ghost predicate Inv<T, D>(s: State<T, D>) {
    !s.io.fault && IoInv(s.io) && QueueLaw(s) && DriverLaw(s)
  }
}
