/**
 * The disk manager when clients may ask for anything.  The driver drops what the device
 * refuses, yet keeps waking the head of disk_queue, so one bad request harms the others too.
 */
module DiskRefusals {
  import opened Sequences
  import opened DiskDevices
  import opened DiskSpec
  import opened DiskRuns

  /** What a caller can check beforehand: a block of a disk of n blocks, and a real buffer. */
  predicate Fit<T>(n: nat, r: Request<T>) {
    0 <= r.block < n && r.buffer != NULL
  }

  function Unfit<T>(n: nat, requests: seq<Request<T>>): nat {
    if requests == [] then 0
    else Unfit(n, requests[..|requests| - 1]) + (if Fit(n, requests[|requests| - 1]) then 0 else 1)
  }

  lemma {:induction false} UnfitHead<T>(n: nat, requests: seq<Request<T>>)
    requires requests != []
    ensures Unfit(n, requests) == Unfit(n, requests[1..]) + (if Fit(n, requests[0]) then 0 else 1)
  {
    if |requests| == 1 {
      assert Unfit(n, requests[..0]) == 0;
    } else {
      var front := requests[..|requests| - 1];
      UnfitHead(n, front);
      assert requests[1..][..|requests| - 2] == front[1..];
    }
  }

  lemma {:induction false} UnfitAtMost<T>(n: nat, requests: seq<Request<T>>)
    ensures Unfit(n, requests) <= |requests|
  {
    if requests != [] {
      UnfitAtMost(n, requests[..|requests| - 1]);
    }
  }

  // ---------------------------------------------------------------- the invariant

  /** The clients asleep in disk_queue. */
  function Clients<T(==), D>(s: State<T, D>): nat {
    |Without(s.queue, s.driver)|
  }

  /** One while the device works, or has finished with nobody told. */
  function UnderWay<T, D>(io: Io<T, D>): nat {
    if Busy(io.device) || io.signal then 1 else 0
  }

  ghost predicate Ordered<T, D>(s: State<T, D>) {
    && !s.io.fault && Sound(s.io.device) && s.io.device.status != DISK_STATUS_UNKNOWN && NULL !in s.io.memory
    && (Busy(s.io.device) ==> s.io.device.buffer in s.io.memory)
    && (forall i :: 0 <= i < |s.io.requests| ==> s.io.requests[i].buffer == NULL || s.io.requests[i].buffer in s.io.memory)
    && (s.io.signal ==> !Busy(s.io.device) && s.awake)
    && (s.driver in s.queue <==> !s.awake)
    && s.driver !in Without(s.queue, s.driver)
    && (!s.awake ==> s.marked)
  }

  /** `refused` unfit requests have been made; each has lost its client a wake-up, or is about to. */
  ghost predicate Accounted<T, D>(s: State<T, D>, refused: nat) {
    && Clients(s) + Unfit(|s.io.device.blocks|, s.io.requests) == refused + |s.io.requests| + UnderWay(s.io)
    && Clients(s) >= |s.io.requests| + UnderWay(s.io)
    && (!s.awake ==> Busy(s.io.device) || s.io.requests == [] || refused > 0)
  }

  ghost predicate LooseInv<T, D>(s: State<T, D>, refused: nat) {
    Ordered(s) && Accounted(s, refused)
  }

  /** One for a step that makes an unfit request. */
  function Refuses<T, D>(n: nat, a: Step<T, D>): nat {
    if a.BlockOp? && !Fit(n, Request(a.tid, a.block, a.buffer, a.op)) then 1 else 0
  }

  lemma DriverOut<T, D>(s: State<T, D>)
    requires s.driver !in Without(s.queue, s.driver)
    ensures Without(DriverResumed(s).queue, s.driver) == Without(s.queue, s.driver)
  {}

  lemma SubmitIsAccounted<T, D>(s: State<T, D>, r: Request<T>, refused: nat)
    requires LooseInv(s, refused) && r.tid != s.driver && (r.buffer == NULL || r.buffer in s.io.memory)
    ensures LooseInv(Submit(s, r), refused + (if Fit(|s.io.device.blocks|, r) then 0 else 1))
  {
    DriverOut(s);
    var quiet := if s.marked then DriverResumed(s) else s;
    WithoutAppended(quiet.queue, s.driver, r.tid);
    assert (s.io.requests + [r])[..|s.io.requests|] == s.io.requests;
  }

  lemma AcknowledgeIsAccounted<T, D>(s: State<T, D>, refused: nat)
    requires LooseInv(s, refused) && s.awake
    ensures LooseInv(Acknowledge(s), refused) && Acknowledge(s).awake && !Acknowledge(s).io.signal
  {
    if s.io.signal {
      assert Without(s.queue, s.driver) == s.queue;
      assert s.driver !in s.queue[1..];
    }
  }

  /** The driver passes an unfit request to the device, which refuses it; a fit one makes an idle device busy. */
  lemma ServeIsAccounted<T, D>(s: State<T, D>, refused: nat)
    requires LooseInv(s, refused) && s.awake && !s.io.signal
    ensures var r := s.(io := Serve(s.io));
            LooseInv(r, refused) && (Busy(r.io.device) || r.io.requests == [] || refused > 0)
  {
    var n := |s.io.device.blocks|;
    if s.io.device.status == DISK_STATUS_IDLE && s.io.requests != [] {
      UnfitHead(n, s.io.requests);
      UnfitAtMost(n, s.io.requests[1..]);
    }
  }

  lemma TurnIsAccounted<T, D>(s: State<T, D>, refused: nat)
    requires LooseInv(s, refused) && s.awake
    ensures LooseInv(Turn(s), refused)
  {
    AcknowledgeIsAccounted(s, refused);
    var s1 := Acknowledge(s);
    ServeIsAccounted(s1, refused);
    assert s1.queue + [s.driver] == s1.queue + [s.driver] + [];
    WithoutMiddle(s1.queue, s.driver, []);
    assert s1.queue + [] == s1.queue;
  }

  lemma CompleteIsAccounted<T, D>(s: State<T, D>, refused: nat)
    requires LooseInv(s, refused) && Enabled(s, Complete)
    ensures LooseInv(DriverResumed(s.(io := Completed(s.io))), refused)
  {
    DriverOut(s);
  }

  lemma StoreIsAccounted<T, D>(s: State<T, D>, buffer: Address, data: D, refused: nat)
    requires LooseInv(s, refused) && Enabled(s, Store(buffer, data))
    ensures LooseInv(s.(io := s.io.(memory := s.io.memory[buffer := data])), refused)
  {}

  lemma StepIsAccounted<T, D>(s: State<T, D>, a: Step<T, D>, refused: nat)
    requires LooseInv(s, refused) && Enabled(s, a)
    ensures LooseInv(Next(s, a), refused + Refuses(|s.io.device.blocks|, a))
    ensures |Next(s, a).io.device.blocks| == |s.io.device.blocks| && Next(s, a).driver == s.driver
  {
    match a
    case BlockOp(tid, block, buffer, op) => SubmitIsAccounted(s, Request(tid, block, buffer, op), refused);
    case Iterate => TurnIsAccounted(s, refused);
    case Complete => CompleteIsAccounted(s, refused);
    case Store(buffer, data) => StoreIsAccounted(s, buffer, data, refused);
    case Scheduled(_) =>
  }

  // ---------------------------------------------------------------- runs of any requests

  ghost predicate IsLooseRun<T, D>(states: seq<State<T, D>>, steps: seq<Step<T, D>>) {
    && |states| == |steps| + 1
    && forall i :: 0 <= i < |steps| ==> Enabled(states[i], steps[i]) && states[i + 1] == Next(states[i], steps[i])
  }

  /** The unfit requests among the first i steps. */
  function Refused<T, D>(n: nat, steps: seq<Step<T, D>>, i: nat): nat
    requires i <= |steps|
  {
    if i == 0 then 0 else Refused(n, steps, i - 1) + Refuses(n, steps[i - 1])
  }

  lemma {:induction false} LooseRunIsAccounted<T, D>(states: seq<State<T, D>>, steps: seq<Step<T, D>>, i: nat)
    requires IsLooseRun(states, steps) && Starts(states[0]) && i < |states|
    ensures var n := |states[0].io.initial|;
            && LooseInv(states[i], Refused(n, steps, i))
            && |states[i].io.device.blocks| == n && states[i].driver == states[0].driver
    decreases i
  {
    if i > 0 {
      LooseRunIsAccounted(states, steps, i - 1);
      StepIsAccounted(states[i - 1], steps[i - 1], Refused(|states[0].io.initial|, steps, i - 1));
    }
  }

  /** Nothing will happen of its own accord: the driver sleeps and the device is idle. */
  predicate AtRest<T, D>(s: State<T, D>) {
    !s.awake && !Busy(s.io.device)
  }

  /** Every request so far was for a block of the disk and a real buffer. */
  ghost predicate AllFit<T, D>(n: nat, steps: seq<Step<T, D>>, i: nat)
    requires i <= |steps|
  {
    forall j :: 0 <= j < i && steps[j].BlockOp? ==> 0 <= steps[j].block < n && steps[j].buffer != NULL
  }

  lemma {:induction false} NoneRefusedIff<T, D>(n: nat, steps: seq<Step<T, D>>, i: nat)
    requires i <= |steps|
    ensures Refused(n, steps, i) == 0 <==> AllFit(n, steps, i)
  {
    if i > 0 {
      NoneRefusedIff(n, steps, i - 1);
    }
  }

  /**
   * Whatever the clients ask for: when everything has come to rest, every client has been
   * woken exactly if every request so far was fit.  Otherwise at least as many clients as
   * there were unfit requests are left asleep, not necessarily those that made them.
   */
  lemma AllWokenIffAllFit<T, D>(states: seq<State<T, D>>, steps: seq<Step<T, D>>, i: nat)
    requires IsLooseRun(states, steps) && Starts(states[0]) && i < |states| && AtRest(states[i])
    ensures var n := |states[0].io.initial|;
            && (states[i].queue == [states[i].driver] <==> AllFit(n, steps, i))
            && Clients(states[i]) >= Refused(n, steps, i)
  {
    var s, n := states[i], |states[0].io.initial|;
    LooseRunIsAccounted(states, steps, i);
    NoneRefusedIff(n, steps, i);
    UnfitAtMost(n, s.io.requests);
    OnlyDriverLeft(s);
  }

  lemma OnlyDriverLeft<T, D>(s: State<T, D>)
    requires s.driver in s.queue
    ensures s.queue == [s.driver] <==> Clients(s) == 0
  {}

  /** Rest is where driver and device cannot go on, and they get there: each of their steps brings it nearer. */
  lemma RestIsReached<T, D>(states: seq<State<T, D>>, steps: seq<Step<T, D>>, i: nat)
    requires IsLooseRun(states, steps) && Starts(states[0]) && i < |states|
    ensures !states[i].io.fault
    ensures AtRest(states[i]) <==> !Enabled(states[i], Iterate) && !Enabled(states[i], Complete)
    ensures forall a: Step<T, D> :: Enabled(states[i], a) && Internal(a) ==> Work(Next(states[i], a)) < Work(states[i])
  {
    LooseRunIsAccounted(states, steps, i);
    forall a: Step<T, D> | Enabled(states[i], a) && Internal(a)
      ensures Work(Next(states[i], a)) < Work(states[i])
    {
      WorkShrinks(states[i], a);
    }
  }

  // ---------------------------------------------------------------- who pays for a bad request

  /** The driver gives an idle device the only request: it is taken up exactly when it is fit. */
  lemma ServeOnly<T, D>(io: Io<T, D>, r: Request<T>)
    requires io.device.status == DISK_STATUS_IDLE && io.requests == [r]
    ensures Serve(io).requests == [] && (Busy(Serve(io).device) <==> Fit(|io.device.blocks|, r))
    ensures !Fit(|io.device.blocks|, r) ==> Serve(io) == io.(requests := [])
  {}

  /** A client comes while nothing is pending: it ends up asleep behind those that were, and the driver is ready. */
  lemma SubmitFirst<T, D>(s: State<T, D>, r: Request<T>)
    requires s.awake && s.driver !in s.queue && s.io.requests == []
    requires r.buffer == NULL || r.buffer in s.io.memory
    ensures var s1 := Submit(s, r);
            && s1.queue == s.queue + [r.tid] && s1.awake && s1.io.requests == [r]
            && s1.io == Requested(s.io, r) && s1.driver == s.driver
  {}

  /** Alone, a request gets the device going exactly when it is fit. */
  lemma ServedIffValid<T, D>(s: State<T, D>, r: Request<T>)
    requires Starts(s) && r.tid != s.driver && (r.buffer == NULL || r.buffer in s.io.memory)
    ensures var after := Turn(Submit(s, r));
            && r.tid in after.queue
            && (ValidRequest(s.io, r) <==> !AtRest(after))
  {
    SubmitFirst(s, r);
    ServeOnly(Requested(s.io, r), r);
    assert Turn(Submit(s, r)).queue == [r.tid, s.driver];
  }

  ghost predicate TwoClients<T, D>(s: State<T, D>, bad: Request<T>, good: Request<T>) {
    && Starts(s) && bad.tid != s.driver && good.tid != s.driver && bad.tid != good.tid
    && !Fit(|s.io.initial|, bad) && (bad.buffer == NULL || bad.buffer in s.io.memory)
    && ValidRequest(s.io, good)
  }

  /** After a refused request the device is as it was, the driver asleep and the client with it. */
  lemma AfterRefusal<T, D>(s: State<T, D>, bad: Request<T>, good: Request<T>)
    requires TwoClients(s, bad, good)
    ensures var s1 := Turn(Submit(s, bad));
            && s1.queue == [bad.tid, s.driver] && !s1.awake && s1.marked && s1.driver == s.driver
            && s1.io.device == s.io.device && s1.io.memory == s.io.memory
            && s1.io.requests == [] && !s1.io.signal && s1.io.completed == 0 && !s1.io.fault
  {
    SubmitFirst(s, bad);
    ServeOnly(Requested(s.io, bad), bad);
    assert Submit(s, bad).queue == [bad.tid];
  }

  /** The device then takes up the good request, with both clients asleep. */
  lemma AfterAcceptance<T, D>(s: State<T, D>, bad: Request<T>, good: Request<T>)
    requires TwoClients(s, bad, good)
    ensures var s2 := Turn(Submit(Turn(Submit(s, bad)), good));
            && Enabled(s2, Complete)
            && s2.queue == [bad.tid, good.tid] + [s.driver] && s2.driver == s.driver
            && s2.io.requests == [] && s2.io.completed == 0
  {
    AfterRefusal(s, bad, good);
    var s1 := Turn(Submit(s, bad));
    WithoutMiddle([bad.tid], s.driver, []);
    assert s1.queue == [bad.tid] + [s.driver] + [];
    assert Submit(s1, good).queue == [bad.tid, good.tid];
    ServeOnly(Requested(s1.io, good), good);
  }

  lemma AfterCompletion<T, D>(s: State<T, D>, bad: Request<T>, good: Request<T>)
    requires TwoClients(s, bad, good) && Enabled(Turn(Submit(Turn(Submit(s, bad)), good)), Complete)
    ensures var s3 := Next(Turn(Submit(Turn(Submit(s, bad)), good)), Complete);
            && s3.queue == [bad.tid, good.tid] && s3.driver == s.driver
            && s3.io.requests == [] && s3.io.completed == 1 && s3.io.signal && !Busy(s3.io.device)
  {
    AfterAcceptance(s, bad, good);
    var s2 := Turn(Submit(Turn(Submit(s, bad)), good));
    assert s2.queue == [bad.tid, good.tid] + [s.driver] + [];
    WithoutMiddle([bad.tid, good.tid], s.driver, []);
    assert [bad.tid, good.tid] + [] == [bad.tid, good.tid];
  }

  /** The client of a refused request is woken in the place of a later one, whose transfer is done but who sleeps on. */
  lemma WakeUpGoesAstray<T, D>(s: State<T, D>, bad: Request<T>, good: Request<T>)
    requires TwoClients(s, bad, good)
    ensures var s2 := Turn(Submit(Turn(Submit(s, bad)), good));
            && Enabled(s2, Complete)
            && var end := Turn(Next(s2, Complete));
               AtRest(end) && end.io.completed == 1 && bad.tid !in end.queue && good.tid in end.queue
  {
    AfterAcceptance(s, bad, good);
    AfterCompletion(s, bad, good);
    SecondLeft(Next(Turn(Submit(Turn(Submit(s, bad)), good)), Complete), bad.tid, good.tid);
  }

  lemma SecondLeft<T, D>(s: State<T, D>, first: T, second: T)
    requires s.queue == [first, second] && first != second && first != s.driver
    requires s.io.requests == [] && s.io.signal && !Busy(s.io.device)
    ensures Turn(s).queue == [second, s.driver] && AtRest(Turn(s)) && Turn(s).io.completed == s.io.completed
  {}

  /** Behind a refused request a valid one stays in the queue, with the device idle and the driver asleep. */
  lemma ValidRequestStranded<T, D>(s: State<T, D>, bad: Request<T>, good: Request<T>)
    requires TwoClients(s, bad, good)
    ensures var end := Turn(Submit(Submit(s, bad), good));
            AtRest(end) && end.io.requests == [good] && good.tid in end.queue
  {
    var s1 := Submit(s, bad);
    assert s1.queue == [bad.tid];
    assert Without(s1.queue, s.driver) == s1.queue;
    assert Submit(s1, good).queue == [bad.tid, good.tid];
    assert Turn(Submit(s1, good)).queue == [bad.tid, good.tid, s.driver];
  }
}
