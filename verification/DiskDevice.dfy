/** The simulated disk: its commands, its completion signal and the delay it arms its timer with. */
module DiskDevices {

  const DISK_CMD_INIT := 0
  const DISK_CMD_READ := 1
  const DISK_CMD_WRITE := 2
  const DISK_CMD_STATUS := 3
  const DISK_CMD_DISKSIZE := 4
  const DISK_CMD_BLOCKSIZE := 5
  const DISK_CMD_DELAYMIN := 6
  const DISK_CMD_DELAYMAX := 7

  const DISK_STATUS_UNKNOWN := 0
  const DISK_STATUS_IDLE := 1
  const DISK_STATUS_READ := 2
  const DISK_STATUS_WRITE := 3

  const DISK_BLOCK_SIZE := 64
  const DISK_DELAY_MIN := 30
  const DISK_DELAY_MAX := 300

  /** Where a block-sized buffer starts; NULL is no buffer. */
  type Address = nat
  const NULL: Address := 0

  /** The device record.  Its buffer address is one block of memory, its file is `blocks`. */
  datatype Device<D> = Device(
    status: int,
    blocks: seq<D>,
    buffer: Address,
    prevBlock: int,
    nextBlock: int)

  /** The record before disk_init, with the disk file's blocks. */
  function Unknown<D>(blocks: seq<D>): Device<D> {
    Device(DISK_STATUS_UNKNOWN, blocks, NULL, 0, 0)
  }

  predicate Busy<D>(d: Device<D>) {
    d.status == DISK_STATUS_READ || d.status == DISK_STATUS_WRITE
  }

  predicate Accepts<D>(d: Device<D>, block: int, buffer: Address) {
    d.status == DISK_STATUS_IDLE && buffer != NULL && 0 <= block < |d.blocks|
  }

  /** The device after a command. */
  function After<D>(d: Device<D>, cmd: int, block: int, buffer: Address): Device<D> {
    if cmd == DISK_CMD_INIT && d.status == DISK_STATUS_UNKNOWN then
      d.(status := DISK_STATUS_IDLE, prevBlock := 0, nextBlock := 0)
    else if (cmd == DISK_CMD_READ || cmd == DISK_CMD_WRITE) && Accepts(d, block, buffer) then
      d.(buffer := buffer, nextBlock := block,
         status := if cmd == DISK_CMD_READ then DISK_STATUS_READ else DISK_STATUS_WRITE)
    else d
  }

  /** What a command returns. */
  function Reply<D>(d: Device<D>, cmd: int, block: int, buffer: Address): int {
    if cmd == DISK_CMD_INIT then (if d.status == DISK_STATUS_UNKNOWN then 0 else -1)
    else if cmd == DISK_CMD_STATUS then d.status
    else if DISK_CMD_DISKSIZE <= cmd <= DISK_CMD_DELAYMAX then
      if d.status == DISK_STATUS_UNKNOWN then -1
      else if cmd == DISK_CMD_DISKSIZE then |d.blocks|
      else if cmd == DISK_CMD_BLOCKSIZE then DISK_BLOCK_SIZE
      else if cmd == DISK_CMD_DELAYMIN then DISK_DELAY_MIN
      else DISK_DELAY_MAX
    else if cmd == DISK_CMD_READ || cmd == DISK_CMD_WRITE then (if Accepts(d, block, buffer) then 0 else -1)
    else -1
  }

  /** The pending transfer is carried out, between the block and the buffer. */
  function Transferred<D>(d: Device<D>, memory: map<Address, D>): (r: (Device<D>, map<Address, D>))
    requires Sound(d) && Busy(d) && d.buffer in memory
  {
    var idle := d.(status := DISK_STATUS_IDLE, prevBlock := d.nextBlock);
    if d.status == DISK_STATUS_READ then (idle, memory[d.buffer := d.blocks[d.nextBlock]])
    else (idle.(blocks := d.blocks[d.nextBlock := memory[d.buffer]]), memory)
  }

  // ---------------------------------------------------------------- what every run of the device keeps

  ghost predicate Sound<D>(d: Device<D>) {
    && DISK_STATUS_UNKNOWN <= d.status <= DISK_STATUS_WRITE
    && |d.blocks| >= 1
    && 0 <= d.prevBlock < |d.blocks| && 0 <= d.nextBlock < |d.blocks|
    && (Busy(d) ==> d.buffer != NULL)
  }

  /** What happens to a device: a command, or the timer of its pending transfer running out. */
  datatype Event = Command(cmd: int, block: int, buffer: Address) | Expiry

  ghost predicate Happens<D>(d: Device<D>, memory: map<Address, D>, e: Event, r: Device<D>, after: map<Address, D>) {
    match e
    case Command(cmd, block, buffer) => r == After(d, cmd, block, buffer)
    case Expiry => Sound(d) && Busy(d) && d.buffer in memory && (r, after) == Transferred(d, memory)
  }

  ghost predicate IsHistory<D>(devices: seq<Device<D>>, memories: seq<map<Address, D>>, events: seq<Event>) {
    && |devices| == |memories| == |events| + 1
    && forall i :: 0 <= i < |events| ==>
         Happens(devices[i], memories[i], events[i], devices[i + 1], memories[i + 1])
  }

  /** Over every history the block numbers stay on the disk and the file keeps its size. */
  lemma {:induction false} StaysSound<D>(devices: seq<Device<D>>, memories: seq<map<Address, D>>, events: seq<Event>, i: nat)
    requires IsHistory(devices, memories, events) && i < |devices|
    requires devices[0] == Unknown(devices[0].blocks) && |devices[0].blocks| >= 1
    ensures Sound(devices[i]) && |devices[i].blocks| == |devices[0].blocks|
  {
    if i > 0 {
      StaysSound(devices, memories, events, i - 1);
      assert Happens(devices[i - 1], memories[i - 1], events[i - 1], devices[i], memories[i]);
    }
  }

  /** Accepted transfers less expired ones. */
  ghost function Outstanding<D>(devices: seq<Device<D>>, events: seq<Event>, i: nat): int
    requires i <= |events| <= |devices|
  {
    if i == 0 then 0
    else
      var before := Outstanding(devices, events, i - 1);
      match events[i - 1]
      case Expiry => before - 1
      case Command(cmd, block, buffer) =>
        if (cmd == DISK_CMD_READ || cmd == DISK_CMD_WRITE) && Reply(devices[i - 1], cmd, block, buffer) == 0
        then before + 1 else before
  }

  /** At most one transfer is outstanding, and there is one exactly while the device is busy. */
  lemma {:induction false} OneOutstanding<D>(devices: seq<Device<D>>, memories: seq<map<Address, D>>, events: seq<Event>, i: nat)
    requires IsHistory(devices, memories, events) && i < |devices|
    requires devices[0] == Unknown(devices[0].blocks) && |devices[0].blocks| >= 1
    ensures Outstanding(devices, events, i) == if Busy(devices[i]) then 1 else 0
  {
    if i > 0 {
      OneOutstanding(devices, memories, events, i - 1);
      StaysSound(devices, memories, events, i - 1);
      assert Happens(devices[i - 1], memories[i - 1], events[i - 1], devices[i], memories[i]);
    }
  }

  // ---------------------------------------------------------------- the history alone tells the rest

  /** The device has taken on the transfer that this event asks for. */
  predicate Took<D>(d: Device<D>, e: Event) {
    e.Command? && (e.cmd == DISK_CMD_READ || e.cmd == DISK_CMD_WRITE) && Reply(d, e.cmd, e.block, e.buffer) == 0
  }

  /** The last transfer taken on in the first i events; before there is one, a read of block 0. */
  ghost function LastTaken<D>(devices: seq<Device<D>>, events: seq<Event>, i: nat): (e: Event)
    requires i <= |events| <= |devices|
    ensures e.Command? && (e.cmd == DISK_CMD_READ || e.cmd == DISK_CMD_WRITE)
  {
    if i == 0 then Command(DISK_CMD_READ, 0, NULL)
    else if Took(devices[i - 1], events[i - 1]) then events[i - 1]
    else LastTaken(devices, events, i - 1)
  }

  /** Where the head stands: at the block of the last transfer carried out, or at 0. */
  ghost function Head<D>(devices: seq<Device<D>>, events: seq<Event>, i: nat): int
    requires i <= |events| <= |devices|
  {
    if i == 0 then 0
    else if events[i - 1].Expiry? then LastTaken(devices, events, i - 1).block
    else Head(devices, events, i - 1)
  }

  ghost predicate Initialised(events: seq<Event>, i: nat)
    requires i <= |events|
  {
    exists j :: 0 <= j < i && events[j].Command? && events[j].cmd == DISK_CMD_INIT
  }

  /** The record holds what the events say: head, pending transfer, and whether there has been an initialisation. */
  ghost predicate AsHistorySays<D>(devices: seq<Device<D>>, events: seq<Event>, i: nat) {
    && i <= |events| < |devices|
    && var d, last := devices[i], LastTaken(devices, events, i);
       && d.prevBlock == Head(devices, events, i) && d.nextBlock == last.block
       && (d.status == DISK_STATUS_UNKNOWN <==> !Initialised(events, i))
       && (d.status == DISK_STATUS_UNKNOWN ==> d.prevBlock == 0 && d.nextBlock == 0)
       && (Busy(d) ==> d.buffer == last.buffer && (d.status == DISK_STATUS_READ <==> last.cmd == DISK_CMD_READ))
  }

  lemma HistoryStep<D>(devices: seq<Device<D>>, memories: seq<map<Address, D>>, events: seq<Event>, i: nat)
    requires IsHistory(devices, memories, events) && i < |events| && Sound(devices[i]) && AsHistorySays(devices, events, i)
    ensures AsHistorySays(devices, events, i + 1)
  {
    var d, e := devices[i], events[i];
    assert Happens(d, memories[i], e, devices[i + 1], memories[i + 1]);
    InitialisedNext(events, i);
  }

  lemma InitialisedNext(events: seq<Event>, i: nat)
    requires i < |events|
    ensures Initialised(events, i + 1) <==> Initialised(events, i) || (events[i].Command? && events[i].cmd == DISK_CMD_INIT)
  {}

  lemma {:induction false} HistoryTellsRecord<D>(devices: seq<Device<D>>, memories: seq<map<Address, D>>, events: seq<Event>, i: nat)
    requires IsHistory(devices, memories, events) && i < |devices|
    requires devices[0] == Unknown(devices[0].blocks) && |devices[0].blocks| >= 1
    ensures AsHistorySays(devices, events, i)
    decreases i
  {
    if i > 0 {
      HistoryTellsRecord(devices, memories, events, i - 1);
      StaysSound(devices, memories, events, i - 1);
      HistoryStep(devices, memories, events, i - 1);
    }
  }

  /** prev_block is the block of the last transfer carried out, and 0 before the first. */
  lemma HeadFollowsTransfers<D>(devices: seq<Device<D>>, memories: seq<map<Address, D>>, events: seq<Event>, i: nat)
    requires IsHistory(devices, memories, events) && i < |devices|
    requires devices[0] == Unknown(devices[0].blocks) && |devices[0].blocks| >= 1
    ensures devices[i].prevBlock == Head(devices, events, i)
  {
    HistoryTellsRecord(devices, memories, events, i);
  }

  /** A transfer is taken on exactly if the device has been initialised, has none pending, and block and buffer are good. */
  lemma TakenIff<D>(devices: seq<Device<D>>, memories: seq<map<Address, D>>, events: seq<Event>, i: nat)
    requires IsHistory(devices, memories, events) && i < |events| && events[i].Command?
    requires devices[0] == Unknown(devices[0].blocks) && |devices[0].blocks| >= 1
    ensures Took(devices[i], events[i])
            <==> (events[i].cmd == DISK_CMD_READ || events[i].cmd == DISK_CMD_WRITE)
                 && Initialised(events, i) && Outstanding(devices, events, i) == 0
                 && events[i].buffer != NULL && 0 <= events[i].block < |devices[0].blocks|
  {
    HistoryTellsRecord(devices, memories, events, i);
    OneOutstanding(devices, memories, events, i);
    StaysSound(devices, memories, events, i);
  }

  /** What the other commands answer: -1 before the initialisation, and a second initialisation is refused. */
  lemma RepliesTell<D>(devices: seq<Device<D>>, memories: seq<map<Address, D>>, events: seq<Event>, i: nat, cmd: int)
    requires IsHistory(devices, memories, events) && i < |devices| && i <= |events|
    requires devices[0] == Unknown(devices[0].blocks) && |devices[0].blocks| >= 1
    ensures var d, ready := devices[i], Initialised(events, i);
            && Reply(d, 0, 0, NULL) == (if ready then -1 else 0)
            && Reply(d, 3, 0, NULL) == (if !ready then 0
                                        else if Outstanding(devices, events, i) == 0 then 1
                                        else if LastTaken(devices, events, i).cmd == 1 then 2 else 3)
            && Reply(d, 4, 0, NULL) == (if ready then |devices[0].blocks| else -1)
            && Reply(d, 5, 0, NULL) == (if ready then 64 else -1)
            && Reply(d, 6, 0, NULL) == (if ready then 30 else -1)
            && Reply(d, 7, 0, NULL) == (if ready then 300 else -1)
            && (cmd < 0 || cmd > 7 ==> Reply(d, cmd, 0, NULL) == -1)
  {
    HistoryTellsRecord(devices, memories, events, i);
    OneOutstanding(devices, memories, events, i);
    StaysSound(devices, memories, events, i);
  }

  /** Only a completion moves data: from the block of the last transfer taken on to its buffer, or back. */
  lemma CompletionTransfers<D>(devices: seq<Device<D>>, memories: seq<map<Address, D>>, events: seq<Event>, i: nat)
    requires IsHistory(devices, memories, events) && i < |events|
    requires devices[0] == Unknown(devices[0].blocks) && |devices[0].blocks| >= 1
    ensures events[i].Command? ==> devices[i + 1].blocks == devices[i].blocks
    ensures events[i].Expiry? ==>
              var last := LastTaken(devices, events, i);
              && 0 <= last.block < |devices[i].blocks| && last.buffer in memories[i]
              && devices[i + 1].blocks == (if last.cmd == DISK_CMD_READ then devices[i].blocks
                                           else devices[i].blocks[last.block := memories[i][last.buffer]])
              && memories[i + 1] == (if last.cmd == DISK_CMD_READ then memories[i][last.buffer := devices[i].blocks[last.block]]
                                     else memories[i])
  {
    HistoryTellsRecord(devices, memories, events, i);
    StaysSound(devices, memories, events, i);
    assert Happens(devices[i], memories[i], events[i], devices[i + 1], memories[i + 1]);
  }

  // ---------------------------------------------------------------- the delay

  function Abs(x: int): nat {
    if x < 0 then -x else x
  }

  /** The delay disk_settimer computes, for any limits, in milliseconds. */
  function Delay(distance: nat, blocks: nat, min: nat, max: nat, rand: nat): int
    requires blocks >= 1 && min < max
  {
    distance * (max - min) / blocks + min + rand % (max - min) / 10
  }

  /** A POSIX timer value is legal when its nanoseconds are less than a second. */
  predicate ValidTime(sec: int, nsec: int) {
    0 <= sec && 0 <= nsec < 1_000_000_000
  }

  lemma ShareBelow(distance: nat, blocks: nat, span: nat)
    requires distance < blocks && span >= 1
    ensures 0 <= distance * span / blocks < span
  {
    var q := distance * span / blocks;
    assert distance * span < blocks * span;
    assert blocks * q <= distance * span;
    assert q >= span ==> blocks * q >= blocks * span;
  }

  /** Every armed delay lies between the least delay and a tenth of the range above the greatest. */
  lemma DelayInRange(distance: nat, blocks: nat, min: nat, max: nat, rand: nat)
    requires distance < blocks && min < max
    ensures min <= Delay(distance, blocks, min, max, rand)
    ensures 10 * Delay(distance, blocks, min, max, rand) < 10 * max + (max - min)
  {
    ShareBelow(distance, blocks, max - min);
  }

  /** The share of the range that the distance takes up. */
  function Share(distance: nat, blocks: nat, span: nat): nat
    requires blocks >= 1
  {
    distance * span / blocks
  }

  /**
   * The delay stays between the two limits, whatever rand() returns, exactly when the distance's
   * share of the range leaves room for the greatest random part.
   */
  lemma WithinLimitsIff(distance: nat, blocks: nat, min: nat, max: nat)
    requires blocks >= 1 && min < max
    ensures (forall rand: nat :: min <= Delay(distance, blocks, min, max, rand) <= max)
            <==> Share(distance, blocks, max - min) + (max - min - 1) / 10 <= max - min
  {
    var span := max - min;
    var worst := span - 1;
    assert Delay(distance, blocks, min, max, worst) == Share(distance, blocks, span) + min + worst / 10;
    forall rand: nat
      ensures min <= Delay(distance, blocks, min, max, rand) <= Delay(distance, blocks, min, max, worst)
    {
      TenthsGrow(rand % span, worst);
    }
  }

  lemma TenthsGrow(a: nat, b: nat)
    requires a <= b
    ensures a / 10 <= b / 10
  {}

  /** For this device: when the head travels so far that the distance's share exceeds 244 of 270 milliseconds it may fail. */
  lemma DeviceWithinLimitsIff(distance: nat, blocks: nat)
    requires blocks >= 1
    ensures (forall rand: nat ::
               DISK_DELAY_MIN <= Delay(distance, blocks, DISK_DELAY_MIN, DISK_DELAY_MAX, rand) <= DISK_DELAY_MAX)
            <==> Share(distance, blocks, 270) <= 244
  {
    WithinLimitsIff(distance, blocks, DISK_DELAY_MIN, DISK_DELAY_MAX);
  }

  /** The random part can carry the delay past the maximum the device reports. */
  lemma DelayCanExceedMaximum()
    ensures Delay(255, 256, DISK_DELAY_MIN, DISK_DELAY_MAX, 269) > DISK_DELAY_MAX
  {}

  /** Seconds and nanoseconds as disk_settimer fills them in are a legal time worth the delay exactly below a second. */
  lemma SplitIsExactIff(ms: nat)
    ensures ValidTime(ms / 1000, ms * 1_000_000) && ms / 1000 * 1_000_000_000 + ms * 1_000_000 == ms * 1_000_000
            <==> ms < 1000
  {}

  /** So with the device's own limits the timer is always set to the delay it means. */
  lemma TimerIsExact(distance: nat, blocks: nat, rand: nat)
    requires distance < blocks
    ensures var ms := Delay(distance, blocks, DISK_DELAY_MIN, DISK_DELAY_MAX, rand);
            && DISK_DELAY_MIN <= ms < DISK_DELAY_MAX + (DISK_DELAY_MAX - DISK_DELAY_MIN) / 10
            && ms * 1_000_000 < 0x8000_0000
            && ValidTime(ms / 1000, ms * 1_000_000)
            && ms / 1000 == 0
  {
    DelayInRange(distance, blocks, DISK_DELAY_MIN, DISK_DELAY_MAX, rand);
  }

  // ---------------------------------------------------------------- the device in place

  /** The static record of the device, updated by each command and by the completion handler. */
  class DiskDevice<D> {
    var status: int
    var blocks: seq<D>
    var buffer: Address
    var prevBlock: int
    var nextBlock: int
    var armed: bool         // the one-shot timer is running
    var seconds: int
    var nanoseconds: int

    ghost function Value(): Device<D>
      reads this
    {
      Device(status, blocks, buffer, prevBlock, nextBlock)
    }

    /** The timer runs exactly while a transfer is pending, and is set to a legal time. */
    ghost predicate Valid()
      reads this
    {
      && Sound(Value())
      && (armed <==> Busy(Value()))
      && ValidTime(seconds, nanoseconds)
    }

    constructor (blocks: seq<D>)
      requires |blocks| >= 1
      ensures Valid() && Value() == Unknown(blocks)
    {
      status, this.blocks, buffer, prevBlock, nextBlock := DISK_STATUS_UNKNOWN, blocks, NULL, 0, 0;
      armed, seconds, nanoseconds := false, 0, 0;
    }

    /** disk_settimer; rand is what rand() returned. */
    method SetTimer(rand: nat)
      requires Sound(Value())
      modifies this`armed, this`seconds, this`nanoseconds
      ensures armed && ValidTime(seconds, nanoseconds)
      ensures var ms := Delay(Abs(nextBlock - prevBlock), |blocks|, DISK_DELAY_MIN, DISK_DELAY_MAX, rand);
              seconds * 1_000_000_000 + nanoseconds == ms * 1_000_000
    {
      TimerIsExact(Abs(nextBlock - prevBlock), |blocks|, rand);
      var span := DISK_DELAY_MAX - DISK_DELAY_MIN;
      var timeMs := Abs(nextBlock - prevBlock) * span / |blocks| + DISK_DELAY_MIN + rand % span / 10;
      nanoseconds := timeMs * 1_000_000;
      seconds := timeMs / 1000;
      armed := true;
    }

    /** disk_cmd. */
    method Cmd(cmd: int, block: int, buffer: Address, rand: nat) returns (reply: int)
      requires Valid()
      modifies this
      ensures Valid()
      ensures Value() == After(old(Value()), cmd, block, buffer)
      ensures reply == Reply(old(Value()), cmd, block, buffer)
      ensures (cmd == DISK_CMD_READ || cmd == DISK_CMD_WRITE) && reply == 0 ==>
                && armed && nextBlock == block && this.buffer == buffer && prevBlock == old(prevBlock)
                && seconds * 1_000_000_000 + nanoseconds
                   == Delay(Abs(block - old(prevBlock)), |blocks|, DISK_DELAY_MIN, DISK_DELAY_MAX, rand) * 1_000_000
      ensures !((cmd == DISK_CMD_READ || cmd == DISK_CMD_WRITE) && reply == 0) ==>
                armed == old(armed) && seconds == old(seconds) && nanoseconds == old(nanoseconds)
    {
      if cmd == DISK_CMD_INIT {
        if status != DISK_STATUS_UNKNOWN {
          return -1;
        }
        status, nextBlock, prevBlock := DISK_STATUS_IDLE, 0, 0;
        return 0;
      }
      if cmd == DISK_CMD_STATUS {
        return status;
      }
      if cmd == DISK_CMD_DISKSIZE || cmd == DISK_CMD_BLOCKSIZE || cmd == DISK_CMD_DELAYMIN || cmd == DISK_CMD_DELAYMAX {
        if status == DISK_STATUS_UNKNOWN {
          return -1;
        }
        return if cmd == DISK_CMD_DISKSIZE then |blocks|
               else if cmd == DISK_CMD_BLOCKSIZE then DISK_BLOCK_SIZE
               else if cmd == DISK_CMD_DELAYMIN then DISK_DELAY_MIN
               else DISK_DELAY_MAX;
      }
      if cmd == DISK_CMD_READ || cmd == DISK_CMD_WRITE {
        if status != DISK_STATUS_IDLE || buffer == NULL || block < 0 || block >= |blocks| {
          return -1;
        }
        this.buffer := buffer;
        nextBlock := block;
        status := if cmd == DISK_CMD_READ then DISK_STATUS_READ else DISK_STATUS_WRITE;
        SetTimer(rand);
        return 0;
      }
      return -1;
    }

    /** disk_sighandle, up to the signal it raises: false stands for the exit on an unexpected state. */
    method SigHandle(memory: map<Address, D>) returns (ok: bool, after: map<Address, D>)
      requires Valid() && (Busy(Value()) ==> buffer in memory)
      modifies this
      ensures Valid()
      ensures ok == old(Busy(Value()))
      ensures ok ==> (Value(), after) == Transferred(old(Value()), memory)
      ensures !ok ==> Value() == old(Value()) && after == memory
      ensures ok ==> prevBlock == old(nextBlock) && status == DISK_STATUS_IDLE && !armed
    {
      after := memory;
      if status == DISK_STATUS_READ {
        after := memory[buffer := blocks[nextBlock]];
      } else if status == DISK_STATUS_WRITE {
        blocks := blocks[nextBlock := memory[buffer]];
      } else {
        return false, after;
      }
      prevBlock := nextBlock;
      status := DISK_STATUS_IDLE;
      armed := false;
      return true, after;
    }
  }
}
