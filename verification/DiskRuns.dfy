/** What every step of the disk manager keeps, and what follows for whole runs. */
module DiskRuns {
  import opened Sequences
  import opened DiskDevices
  import opened DiskSpec

  // ---------------------------------------------------------------- the record and the memory

  lemma AnswerIsStable<T, D>(blocks: seq<D>, subs: seq<Submission<T, D>>, more: seq<Submission<T, D>>, i: nat)
    requires i < |subs| && 0 <= subs[i].request.block < |blocks|
    ensures Answer(blocks, subs + more, i) == Answer(blocks, subs, i)
  {
    assert (subs + more)[..i] == subs[..i];
  }

  lemma ExecNext<T, D>(blocks: seq<D>, subs: seq<Submission<T, D>>, n: nat)
    requires n < |subs| && 0 <= subs[n].request.block < |blocks|
    ensures Exec(blocks, subs[..n + 1]) ==
            if subs[n].request.op == WRITE then Exec(blocks, subs[..n])[subs[n].request.block := subs[n].data]
            else Exec(blocks, subs[..n])
  {
    assert subs[..n + 1][..n] == subs[..n];
  }

  lemma RequestKeepsRecord<T, D>(io: Io<T, D>, r: Request<T>)
    requires IoInv(io) && ValidRequest(io, r)
    ensures var after := Requested(io, r);
            && Counts(after) && AllValid(after) && DeviceWorks(after)
            && after.submitted[..io.completed] == io.submitted[..io.completed]
  {
    var after := Requested(io, r);
    assert after.submitted[Started(io)..] == io.submitted[Started(io)..] + [Submission(r, io.memory[r.buffer])];
  }

  lemma RequestKeepsAnswers<T, D>(io: Io<T, D>, r: Request<T>)
    requires IoInv(io) && ValidRequest(io, r) && AllValid(Requested(io, r)) && DeviceWorks(Requested(io, r))
    ensures BuffersHold(Requested(io, r)) && Answered(Requested(io, r))
  {
    var after := Requested(io, r);
    forall i | 0 <= i < |io.submitted|
      ensures Answer(io.initial, after.submitted, i) == Answer(io.initial, io.submitted, i)
    {
      AnswerIsStable(io.initial, io.submitted, [Submission(r, io.memory[r.buffer])], i);
    }
  }

  lemma RequestKeepsApart<T, D>(io: Io<T, D>, r: Request<T>)
    requires BuffersApart(io) && r.buffer in io.memory && |io.returned| <= |io.submitted|
    requires if r.op == READ then !InUse(io, r.buffer) else !BeingRead(io, r.buffer)
    ensures BuffersApart(Requested(io, r))
  {}

  lemma RequestKeepsInv<T, D>(io: Io<T, D>, r: Request<T>)
    requires IoInv(io) && ValidRequest(io, r)
    requires if r.op == READ then !InUse(io, r.buffer) else !BeingRead(io, r.buffer)
    ensures IoInv(Requested(io, r))
  {
    RequestKeepsRecord(io, r);
    RequestKeepsAnswers(io, r);
    RequestKeepsApart(io, r);
  }

  lemma CompletionKeepsRecord<T, D>(io: Io<T, D>)
    requires IoInv(io) && Busy(io.device) && io.device.buffer in io.memory
    ensures var after := Completed(io);
            && Counts(after) && AllValid(after) && DeviceWorks(after)
            && after.device.blocks == Exec(io.initial, io.submitted[..io.completed + 1])
  {
    var r := io.submitted[io.completed].request;
    ExecNext(io.initial, io.submitted, io.completed);
    assert io.memory[r.buffer] == io.submitted[io.completed].data || r.op == READ;
  }

  /** Only the buffer of the request just carried out is written, and only if it was a read. */
  lemma CompletionKeepsBuffers<T, D>(io: Io<T, D>)
    requires IoInv(io) && Busy(io.device) && io.device.buffer in io.memory
    requires AllValid(Completed(io)) && DeviceWorks(Completed(io))
    ensures BuffersHold(Completed(io))
  {
    var r := io.submitted[io.completed].request;
    assert |io.returned| == io.completed && io.device.buffer == r.buffer;
    assert io.device.blocks == Exec(io.initial, io.submitted[..io.completed]);
  }

  lemma CompletionKeepsInv<T, D>(io: Io<T, D>)
    requires IoInv(io) && Busy(io.device) && io.device.buffer in io.memory
    ensures IoInv(Completed(io))
  {
    CompletionKeepsRecord(io);
    CompletionKeepsBuffers(io);
  }

  lemma ReturnKeepsInv<T, D>(io: Io<T, D>, tid: T)
    requires IoInv(io) && io.signal && tid == io.submitted[|io.returned|].request.tid
    ensures IoInv(Returned(io, tid))
  {}

  lemma ServeKeepsInv<T, D>(io: Io<T, D>)
    requires IoInv(io) && !io.signal
    ensures IoInv(Serve(io)) && !Serve(io).signal
    ensures Busy(Serve(io).device) || Serve(io).requests == []
  {
    if io.device.status == DISK_STATUS_IDLE && io.requests != [] {
      var c := io.completed;
      assert io.requests[0] == io.submitted[c].request;
      assert io.submitted[c..][1..] == io.submitted[c + 1..];
    }
  }

  lemma StoreKeepsInv<T, D>(io: Io<T, D>, buffer: Address, data: D)
    requires IoInv(io) && buffer in io.memory && !InUse(io, buffer)
    ensures IoInv(io.(memory := io.memory[buffer := data]))
  {}

  // ---------------------------------------------------------------- the queue of tasks

  lemma WithoutAppended<T>(q: seq<T>, x: T, y: T)
    requires x != y
    ensures Without(q + [y], x) == Without(q, x) + [y]
  {
    if x in q {
      WithoutInFront(q, x, [y]);
    }
  }

  lemma TidsAppended<T, D>(subs: seq<Submission<T, D>>, sub: Submission<T, D>, h: nat)
    requires h <= |subs|
    ensures Tids((subs + [sub])[h..]) == Tids(subs[h..]) + [sub.request.tid]
  {
    assert (subs + [sub])[h..] == subs[h..] + [sub];
  }

  /** Taking the only occurrence of the driver out of the queue leaves none. */
  lemma DriverLeaves<T, D>(s: State<T, D>)
    requires QueueLaw(s)
    ensures QueueLaw(DriverResumed(s))
  {
    var rest := Without(s.queue, s.driver);
    var owners := s.io.submitted[|s.io.returned|..];
    forall i | 0 <= i < |rest|
      ensures rest[i] != s.driver
    {
      assert rest[i] == Tids(owners)[i] == Tids(s.io.submitted)[|s.io.returned| + i];
    }
    assert Without(rest, s.driver) == rest;
  }

  lemma SubmitKeepsInv<T, D>(s: State<T, D>, r: Request<T>)
    requires Inv(s) && r.tid != s.driver && ValidRequest(s.io, r)
    requires if r.op == READ then !InUse(s.io, r.buffer) else !BeingRead(s.io, r.buffer)
    ensures Inv(Submit(s, r))
  {
    RequestKeepsInv(s.io, r);
    DriverLeaves(s);
    var quiet := if s.marked then DriverResumed(s) else s;
    var sub := Submission(r, s.io.memory[r.buffer]);
    WithoutAppended(quiet.queue, s.driver, r.tid);
    TidsAppended(s.io.submitted, sub, |s.io.returned|);
    TidsAppended(s.io.submitted, sub, 0);
    assert (s.io.submitted + [sub])[0..] == s.io.submitted + [sub] && s.io.submitted[0..] == s.io.submitted;
  }

  /** The first task of disk_queue is then the owner of the request the device has just carried out. */
  lemma SignalFindsOwner<T, D>(s: State<T, D>)
    requires Inv(s) && s.io.signal
    ensures s.queue != [] && |s.io.returned| == s.io.completed - 1
    ensures s.queue[0] == s.io.submitted[s.io.completed - 1].request.tid
  {
    var h := |s.io.returned|;
    assert s.queue == Tids(s.io.submitted[h..]);
    assert s.io.submitted[h..][0] == s.io.submitted[h];
  }

  lemma AcknowledgeKeepsInv<T, D>(s: State<T, D>)
    requires Inv(s) && s.awake
    ensures Inv(Acknowledge(s)) && Acknowledge(s).awake && !Acknowledge(s).io.signal
  {
    if s.io.signal {
      SignalFindsOwner(s);
      ReturnKeepsInv(s.io, s.queue[0]);
      var h := |s.io.returned|;
      assert s.io.submitted[h..][1..] == s.io.submitted[h + 1..];
      assert Tids(s.io.submitted[h..])[1..] == Tids(s.io.submitted[h + 1..]);
      assert s.driver !in s.queue[1..];
    }
  }

  lemma TurnKeepsInv<T, D>(s: State<T, D>)
    requires Inv(s) && s.awake
    ensures Inv(Turn(s))
  {
    AcknowledgeKeepsInv(s);
    var s1 := Acknowledge(s);
    ServeKeepsInv(s1.io);
    assert s1.queue + [s.driver] == s1.queue + [s.driver] + [];
    WithoutMiddle(s1.queue, s.driver, []);
    assert s1.queue + [] == s1.queue;
  }

  lemma CompleteKeepsInv<T, D>(s: State<T, D>)
    requires Inv(s) && Busy(s.io.device) && s.io.device.buffer in s.io.memory
    ensures Inv(DriverResumed(s.(io := Completed(s.io))))
  {
    CompletionKeepsInv(s.io);
    DriverLeaves(s);
  }

  lemma StepKeepsInv<T, D>(s: State<T, D>, a: Step<T, D>)
    requires Inv(s) && Enabled(s, a) && Proper(s, a)
    ensures Inv(Next(s, a))
  {
    match a
    case BlockOp(tid, block, buffer, op) => SubmitKeepsInv(s, Request(tid, block, buffer, op));
    case Iterate => TurnKeepsInv(s);
    case Complete => CompleteKeepsInv(s);
    case Store(buffer, data) => StoreKeepsInv(s.io, buffer, data);
    case Scheduled(_) =>
  }

  // ---------------------------------------------------------------- runs

  /** A run from an initialised disk on: any enabled steps, with every buffer left alone while it is in use. */
  ghost predicate IsRun<T, D>(states: seq<State<T, D>>, steps: seq<Step<T, D>>) {
    && |states| == |steps| + 1
    && forall i :: 0 <= i < |steps| ==> IsStep(states[i], steps[i], states[i + 1])
  }

  ghost predicate IsStep<T, D>(s: State<T, D>, a: Step<T, D>, r: State<T, D>) {
    Enabled(s, a) && Proper(s, a) && r == Next(s, a)
  }

  /** disk_mgr_init has been called: the driver task is ready and has never run. */
  ghost predicate Starts<T, D>(s: State<T, D>) {
    && s.io == Start(s.io.initial, s.io.memory) && |s.io.initial| >= 1 && NULL !in s.io.memory
    && s.queue == [] && s.awake
  }

  lemma {:induction false} RunKeepsInv<T, D>(states: seq<State<T, D>>, steps: seq<Step<T, D>>, i: nat)
    requires IsRun(states, steps) && Starts(states[0]) && i < |states|
    ensures Inv(states[i])
  {
    if i > 0 {
      RunKeepsInv(states, steps, i - 1);
      StepKeepsInv(states[i - 1], steps[i - 1]);
    }
  }

  /** What the clients have asked for in the first i steps, each request with what its buffer held at that moment. */
  ghost function Asked<T, D>(states: seq<State<T, D>>, steps: seq<Step<T, D>>, i: nat): seq<Submission<T, D>>
    requires i <= |steps| && i <= |states|
  {
    if i == 0 then []
    else
      match steps[i - 1]
      case BlockOp(tid, block, buffer, op) =>
        if buffer in states[i - 1].io.memory
        then Asked(states, steps, i - 1) + [Submission(Request(tid, block, buffer, op), states[i - 1].io.memory[buffer])]
        else Asked(states, steps, i - 1)
      case _ => Asked(states, steps, i - 1)
  }

  /** A step submits what its client asks for, and nothing else. */
  lemma StepSubmits<T, D>(s: State<T, D>, a: Step<T, D>)
    requires Enabled(s, a)
    ensures Next(s, a).io.submitted == s.io.submitted +
            (if a.BlockOp? && a.buffer in s.io.memory
             then [Submission(Request(a.tid, a.block, a.buffer, a.op), s.io.memory[a.buffer])] else [])
    ensures a.BlockOp? ==> Next(s, a).io.requests == s.io.requests + [Request(a.tid, a.block, a.buffer, a.op)]
  {
    assert s.io.submitted + [] == s.io.submitted;
  }

  lemma NothingSubmitted<T, D>(s: State<T, D>)
    requires Starts(s)
    ensures s.io.submitted == [] && s.io.completed == 0 && s.io.returned == [] && s.io.initial == s.io.device.blocks
  {}

  /** How many transfers the device has carried out in the first i steps. */
  function Completions<T, D>(steps: seq<Step<T, D>>, i: nat): nat
    requires i <= |steps|
  {
    if i == 0 then 0 else Completions(steps, i - 1) + (if steps[i - 1].Complete? then 1 else 0)
  }

  /**
   * Whom the driver has readied in the first i steps, and what that client finds: on a signal, the
   * head of disk_queue, and the memory at the buffer of the oldest request not yet answered.
   */
  ghost function Served<T, D>(states: seq<State<T, D>>, steps: seq<Step<T, D>>, i: nat): seq<Outcome<T, D>>
    requires i <= |steps| && i <= |states|
  {
    if i == 0 then []
    else
      var s, before, asked := states[i - 1], Served(states, steps, i - 1), Asked(states, steps, i - 1);
      if steps[i - 1].Iterate? && s.io.signal && s.queue != []
         && |before| < |asked| && asked[|before|].request.buffer in s.io.memory
      then before + [Outcome(s.queue[0], s.io.memory[asked[|before|].request.buffer])]
      else before
  }

  ghost predicate Recorded<T, D>(states: seq<State<T, D>>, steps: seq<Step<T, D>>, i: nat) {
    && i <= |steps| && i < |states|
    && var io := states[i].io;
       && io.submitted == Asked(states, steps, i) && io.completed == Completions(steps, i)
       && io.returned == Served(states, steps, i) && io.initial == states[0].io.device.blocks
  }

  /** A step counts a completion, or a client readied, exactly when it is one. */
  lemma StepRecords<T, D>(s: State<T, D>, a: Step<T, D>)
    requires Enabled(s, a)
    ensures var io, r := s.io, Next(s, a).io;
            && r.completed == io.completed + (if a.Complete? then 1 else 0) && r.initial == io.initial
            && r.returned ==
               if a.Iterate? && io.signal && s.queue != []
                  && |io.returned| < |io.submitted| && io.submitted[|io.returned|].request.buffer in io.memory
               then io.returned + [Outcome(s.queue[0], io.memory[io.submitted[|io.returned|].request.buffer])]
               else io.returned
  {}

  ghost predicate RecordsOn<T, D>(states: seq<State<T, D>>, steps: seq<Step<T, D>>, i: nat) {
    Recorded(states, steps, i) ==> Recorded(states, steps, i + 1)
  }

  lemma RunRecords<T, D>(states: seq<State<T, D>>, steps: seq<Step<T, D>>, i: nat)
    requires i < |steps| && i + 1 < |states| && IsStep(states[i], steps[i], states[i + 1])
    ensures RecordsOn(states, steps, i)
  {
    StepSubmits(states[i], steps[i]);
    StepRecords(states[i], steps[i]);
  }

  lemma {:induction false} RecordLasts<T, D>(states: seq<State<T, D>>, steps: seq<Step<T, D>>, i: nat)
    requires i <= |steps| < |states| && Recorded(states, steps, 0)
    requires forall k :: 0 <= k < |steps| ==> RecordsOn(states, steps, k)
    ensures Recorded(states, steps, i)
    decreases i
  {
    if i > 0 {
      RecordLasts(states, steps, i - 1);
      assert RecordsOn(states, steps, i - 1);
    }
  }

  /** What the record says of the past is what the steps did. */
  lemma RecordIsHistory<T, D>(states: seq<State<T, D>>, steps: seq<Step<T, D>>, i: nat)
    requires IsRun(states, steps) && Starts(states[0]) && i < |states|
    ensures Recorded(states, steps, i)
  {
    NothingSubmitted(states[0]);
    forall k | 0 <= k < |steps|
      ensures RecordsOn(states, steps, k)
    {
      RunRecords(states, steps, k);
    }
    RecordLasts(states, steps, i);
  }

  /**
   * The asynchronous disk is the sequential one: the disk holds what the carried out requests
   * leave when executed one by one in the order in which they were made, and the clients
   * return in that order, each with the answer the sequential disk gives to its request.
   */
  lemma RefinesSequentialDisk<T, D>(states: seq<State<T, D>>, steps: seq<Step<T, D>>, i: nat)
    requires IsRun(states, steps) && Starts(states[0]) && i < |states|
    ensures var blocks, asked, served := states[0].io.device.blocks, Asked(states, steps, i), Served(states, steps, i);
            && |served| <= Completions(steps, i) <= |asked|
            && states[i].io.device.blocks == Exec(blocks, asked[..Completions(steps, i)])
            && forall k :: 0 <= k < |served| ==>
                 && 0 <= asked[k].request.block < |blocks|
                 && served[k] == Outcome(asked[k].request.tid, Answer(blocks, asked, k))
  {
    RunKeepsInv(states, steps, i);
    RecordIsHistory(states, steps, i);
  }

  /** What the last writer left in a buffer: a task that stored there, or a read that the device has carried out. */
  ghost function Held<T, D>(states: seq<State<T, D>>, steps: seq<Step<T, D>>, buffer: Address, i: nat): D
    requires i <= |steps| && i < |states| && buffer in states[0].io.memory
  {
    if i == 0 then states[0].io.memory[buffer]
    else
      var blocks, asked, k := states[0].io.device.blocks, Asked(states, steps, i - 1), Completions(steps, i - 1);
      if steps[i - 1].Store? && steps[i - 1].buffer == buffer then steps[i - 1].data
      else if steps[i - 1].Complete? && k < |asked| && 0 <= asked[k].request.block < |blocks|
              && asked[k].request.op == READ && asked[k].request.buffer == buffer
      then Answer(blocks, asked, k)
      else Held(states, steps, buffer, i - 1)
  }

  lemma CompletionWrites<T, D>(io: Io<T, D>, buffer: Address)
    requires IoInv(io) && Busy(io.device) && io.device.buffer in io.memory && buffer in io.memory
    ensures var k, memory := io.completed, Completed(io).memory;
            && k < |io.submitted| && memory.Keys == io.memory.Keys
            && memory[buffer] ==
               if io.submitted[k].request.op == READ && io.submitted[k].request.buffer == buffer
               then Answer(io.initial, io.submitted, k)
               else io.memory[buffer]
  {}

  lemma OthersWrite<T, D>(s: State<T, D>, a: Step<T, D>, buffer: Address)
    requires Enabled(s, a) && !a.Complete? && buffer in s.io.memory
    ensures var memory := Next(s, a).io.memory;
            && memory.Keys == s.io.memory.Keys
            && memory[buffer] == if a.Store? && a.buffer == buffer then a.data else s.io.memory[buffer]
  {}

  ghost predicate WritesOn<T, D>(states: seq<State<T, D>>, steps: seq<Step<T, D>>, buffer: Address, i: nat) {
    Holding(states, steps, buffer, i) ==> Holding(states, steps, buffer, i + 1)
  }

  ghost predicate Holding<T, D>(states: seq<State<T, D>>, steps: seq<Step<T, D>>, buffer: Address, i: nat) {
    && i <= |steps| && i < |states| && buffer in states[0].io.memory && buffer in states[i].io.memory
    && states[i].io.memory[buffer] == Held(states, steps, buffer, i)
  }

  lemma RunWrites<T, D>(states: seq<State<T, D>>, steps: seq<Step<T, D>>, buffer: Address, i: nat)
    requires i < |steps| && i + 1 < |states| && IsStep(states[i], steps[i], states[i + 1])
    requires Inv(states[i]) && Recorded(states, steps, i)
    ensures WritesOn(states, steps, buffer, i)
  {
    if Holding(states, steps, buffer, i) {
      if steps[i].Complete? {
        CompletionWrites(states[i].io, buffer);
      } else {
        OthersWrite(states[i], steps[i], buffer);
      }
    }
  }

  lemma {:induction false} HoldingLasts<T, D>(states: seq<State<T, D>>, steps: seq<Step<T, D>>, buffer: Address, i: nat)
    requires i <= |steps| < |states| && buffer in states[0].io.memory
    requires forall k :: 0 <= k < |steps| ==> WritesOn(states, steps, buffer, k)
    ensures Holding(states, steps, buffer, i)
    decreases i
  {
    if i > 0 {
      HoldingLasts(states, steps, buffer, i - 1);
      assert WritesOn(states, steps, buffer, i - 1);
    }
  }

  /** Every buffer holds what its last writer left, and nobody else writes: the tasks' stores, and the answers to reads. */
  lemma BuffersAreHistory<T, D>(states: seq<State<T, D>>, steps: seq<Step<T, D>>, buffer: Address, i: nat)
    requires IsRun(states, steps) && Starts(states[0]) && i < |states| && buffer in states[0].io.memory
    ensures buffer in states[i].io.memory && states[i].io.memory[buffer] == Held(states, steps, buffer, i)
  {
    forall k | 0 <= k < |steps|
      ensures WritesOn(states, steps, buffer, k)
    {
      RunKeepsInv(states, steps, k);
      RecordIsHistory(states, steps, k);
      RunWrites(states, steps, buffer, k);
    }
    HoldingLasts(states, steps, buffer, i);
  }

  lemma OwnersInQueue<T, D>(s: State<T, D>)
    requires Inv(s)
    ensures |s.io.returned| <= Started(s.io) <= |s.io.submitted|
    ensures Without(s.queue, s.driver) == Tids(s.io.submitted[|s.io.returned|..Started(s.io)]) + RequestTids(s.io.requests)
  {
    var h, n := |s.io.returned|, Started(s.io);
    assert s.io.submitted[h..] == s.io.submitted[h..n] + s.io.submitted[n..];
    TidsOfParts(s.io.submitted[h..n], s.io.submitted[n..]);
  }

  lemma TidsOfParts<T, D>(a: seq<Submission<T, D>>, b: seq<Submission<T, D>>)
    ensures Tids(a + b) == Tids(a) + RequestTids(Requests(b))
  {}

  /** disk_queue holds exactly the owners of the unreturned requests, in the order of their requests. */
  lemma QueueIsOwners<T, D>(states: seq<State<T, D>>, steps: seq<Step<T, D>>, i: nat)
    requires IsRun(states, steps) && Starts(states[0]) && i < |states|
    ensures var s := states[i];
            && |s.io.returned| <= Started(s.io) <= |s.io.submitted|
            && s.io.requests == Requests(s.io.submitted[Started(s.io)..])
            && Without(s.queue, s.driver) == Tids(s.io.submitted[|s.io.returned|..Started(s.io)]) + RequestTids(s.io.requests)
            && Started(s.io) - |s.io.returned| <= 1
            && (s.driver in s.queue <==> !s.awake)
  {
    RunKeepsInv(states, steps, i);
    OwnersInQueue(states[i]);
  }

  function RequestTids<T>(requests: seq<Request<T>>): (r: seq<T>)
    ensures |r| == |requests|
    ensures forall i :: 0 <= i < |r| ==> r[i] == requests[i].tid
  {
    seq(|requests|, i requires 0 <= i < |requests| => requests[i].tid)
  }

  /** Handling a signal readies the owner of the completed request, never through a null pointer. */
  lemma DriverWakesOwner<T, D>(states: seq<State<T, D>>, steps: seq<Step<T, D>>, i: nat)
    requires IsRun(states, steps) && Starts(states[0]) && i < |states|
    ensures !states[i].io.fault
    ensures states[i].io.signal ==>
              && 0 < states[i].io.completed <= |states[i].io.submitted|
              && states[i].queue != []
              && states[i].queue[0] == states[i].io.submitted[states[i].io.completed - 1].request.tid
  {
    RunKeepsInv(states, steps, i);
    if states[i].io.signal {
      SignalFindsOwner(states[i]);
    }
  }

  /** The driver never sleeps through work: the device is busy, or there is nothing to do. */
  lemma DriverSleepsInPeace<T, D>(states: seq<State<T, D>>, steps: seq<Step<T, D>>, i: nat)
    requires IsRun(states, steps) && Starts(states[0]) && i < |states| && !states[i].awake
    ensures var s := states[i];
            Busy(s.io.device) || (s.io.requests == [] && !s.io.signal && s.queue == [s.driver])
  {
    RunKeepsInv(states, steps, i);
    var s := states[i];
    if !Busy(s.io.device) {
      var h := |s.io.returned|;
      assert s.io.submitted[h..] == [];
      assert Without(s.queue, s.driver) == [];
    }
  }

  // ---------------------------------------------------------------- no request is lost

  /** Driver and device, left to themselves. */
  predicate Internal<T, D>(a: Step<T, D>) {
    a.Iterate? || a.Complete?
  }

  /** How much they have left to do. */
  function Work<T, D>(s: State<T, D>): nat {
    3 * |s.io.requests| + (if Busy(s.io.device) then 2 else 0) + (if s.awake then 1 else 0)
  }

  lemma WorkShrinks<T, D>(s: State<T, D>, a: Step<T, D>)
    requires Enabled(s, a) && Internal(a)
    ensures Work(Next(s, a)) < Work(s)
  {}

  /** While a request is unreturned, the driver or the device can take a step. */
  lemma WorkGoesOn<T, D>(s: State<T, D>)
    requires Inv(s) && |s.io.returned| < |s.io.submitted|
    ensures Enabled(s, Iterate) || Enabled(s, Complete)
  {}

  lemma StuckMeansReturned<T, D>(s: State<T, D>)
    requires Inv(s) && !Enabled(s, Iterate) && !Enabled(s, Complete)
    ensures |s.io.returned| == |s.io.submitted| && s.queue == [s.driver]
  {
    if |s.io.returned| < |s.io.submitted| {
      WorkGoesOn(s);
    }
    assert Without(s.queue, s.driver) == [];
  }

  /** A step that makes no request keeps the requests, and none but theirs changes the work left. */
  lemma QuietStep<T, D>(s: State<T, D>, a: Step<T, D>)
    requires Enabled(s, a) && !a.BlockOp?
    ensures Next(s, a).io.submitted == s.io.submitted
    ensures Work(Next(s, a)) + (if Internal(a) then 1 else 0) <= Work(s)
  {
    if Internal(a) {
      WorkShrinks(s, a);
    }
  }

  lemma RunStep<T, D>(states: seq<State<T, D>>, steps: seq<Step<T, D>>, i: nat)
    requires IsRun(states, steps) && 0 < i < |states| && Inv(states[i - 1])
    ensures Inv(states[i])
    ensures !steps[i - 1].BlockOp? ==>
              && states[i].io.submitted == states[i - 1].io.submitted
              && Work(states[i]) + (if Internal(steps[i - 1]) then 1 else 0) <= Work(states[i - 1])
  {
    var k := i - 1;
    assert IsStep(states[k], steps[k], states[k + 1]);
    StepKeepsInv(states[k], steps[k]);
    if !steps[k].BlockOp? {
      QuietStep(states[k], steps[k]);
    }
  }

  /** How many of the first i steps are the driver's or the device's. */
  function Internals<T, D>(steps: seq<Step<T, D>>, i: nat): nat
    requires i <= |steps|
  {
    if i == 0 then 0 else Internals(steps, i - 1) + (if Internal(steps[i - 1]) then 1 else 0)
  }

  /** Nothing is left to do: every request has been returned and only the driver sleeps in disk_queue. */
  ghost predicate AllReturned<T, D>(s: State<T, D>) {
    |s.io.returned| == |s.io.submitted| && s.queue == [s.driver]
  }

  lemma {:induction false} WorkRunsOut<T, D>(states: seq<State<T, D>>, steps: seq<Step<T, D>>, i: nat)
    requires IsRun(states, steps) && Inv(states[0]) && forall j :: 0 <= j < |steps| ==> !steps[j].BlockOp?
    requires i < |states|
    ensures Inv(states[i]) && states[i].io.submitted == states[0].io.submitted
    ensures Internals(steps, i) + Work(states[i]) <= Work(states[0])
    decreases i
  {
    if i > 0 {
      WorkRunsOut(states, steps, i - 1);
      RunStep(states, steps, i);
    }
  }

  /**
   * While nobody makes new requests, driver and device take at most Work steps, whatever
   * happens in between, and when they can take no more every request has been returned.
   */
  lemma EveryRequestReturns<T, D>(states: seq<State<T, D>>, steps: seq<Step<T, D>>, i: nat)
    requires IsRun(states, steps) && Inv(states[0]) && forall j :: 0 <= j < |steps| ==> !steps[j].BlockOp?
    requires i < |states|
    ensures Internals(steps, i) + Work(states[i]) <= Work(states[0])
    ensures states[i].io.submitted == states[0].io.submitted
    ensures !Enabled(states[i], Iterate) && !Enabled(states[i], Complete) ==> AllReturned(states[i])
  {
    WorkRunsOut(states, steps, i);
    if !Enabled(states[i], Iterate) && !Enabled(states[i], Complete) {
      StuckMeansReturned(states[i]);
    }
  }
}
