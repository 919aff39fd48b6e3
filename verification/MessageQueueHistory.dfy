/**
 * The message queue in its callers' terms: which message each call was given, what it
 * returned, and what a receiver found in its variable.
 */
module MessageQueueHistory {
  import opened MessageQueues
  import opened MessageQueueTheorems

  datatype Maybe<M> = None | Some(value: M)

  /** A task's last call: the message it was given, if it sends; whether it has put or taken one; what it took. */
  datatype Account<M> = Account(called: bool, given: Maybe<M>, served: bool, got: Maybe<M>)

  /** The tasks' accounts, the messages put so far in that order, and how many have been taken. */
  datatype History<M> = History(tasks: seq<Account<M>>, puts: seq<M>, takes: nat)

  function NoHistory<M>(n: nat): History<M> {
    History(seq(n, _ => Account(false, None, false, None)), [], 0)
  }

  /** One more step, as seen by the callers: the k-th message taken is the k-th put. */
  ghost function Recorded<M>(h: History<M>, s: State<M>, a: Step<M>): History<M> {
    match a
    case CallSend(t, m) => if t < |h.tasks| then h.(tasks := h.tasks[t := Account(true, Some(m), false, None)]) else h
    case CallRecv(t) => if t < |h.tasks| then h.(tasks := h.tasks[t := Account(true, None, false, None)]) else h
    case Go(t) =>
      if !s.active || t >= |h.tasks| || t >= |s.pcs| then h
      else if s.pcs[t] == SendPut && h.tasks[t].given.Some? then
        h.(tasks := h.tasks[t := h.tasks[t].(served := true)], puts := h.puts + [h.tasks[t].given.value])
      else if s.pcs[t] == RecvTake && h.takes < |h.puts| then
        h.(tasks := h.tasks[t := h.tasks[t].(served := true, got := Some(h.puts[h.takes]))], takes := h.takes + 1)
      else h
    case DestroyQueue => h
  }

  predicate Sending(pc: Pc) {
    pc == SendVaga || pc == SendBuffer || pc == SendPut || pc == SendUnlock || pc == SendItem
  }

  predicate Receiving(pc: Pc) {
    pc == RecvItem || pc == RecvBuffer || pc == RecvTake || pc == RecvUnlock || pc == RecvVaga
  }

  /** What task t stands at, holds and has been returned fits its account. */
  ghost predicate Fits<M>(s: State<M>, t: Tid, account: Account<M>)
    requires t < |s.pcs| && t < |s.arg| && t < |s.ret|
  {
    var pc := s.pcs[t];
    && (Sending(pc) ==> account.given == Some(s.arg[t]))
    && (Receiving(pc) ==> account.given == None)
    && (pc != Idle ==> account.called && (account.served <==> !Pending(pc)))
    && (pc == Idle && account.called ==> s.ret[t] == if account.served then 0 else -1)
    && (account.got.Some? ==> s.arg[t] == account.got.value)
    && (account.given == None ==> (account.served <==> account.got.Some?))
  }

  ghost predicate Agrees<M>(s: State<M>, h: History<M>) {
    && Shape(s) && |h.tasks| == |s.pcs|
    && s.sent == h.puts && |s.taken| == h.takes && s.taken <= s.sent
    && forall t :: 0 <= t < |s.pcs| ==> Fits(s, t, h.tasks[t])
  }

  /** Only the stepping task's account and variables change. */
  lemma OthersFit<M>(s: State<M>, h: History<M>, a: Step<M>, t: Tid)
    requires Inv(s) && Legal(s, a) && Agrees(s, h) && t < |s.pcs| && (a.DestroyQueue? || t != a.t)
    ensures var r, g := Next(s, a), Recorded(h, s, a);
            && Shape(r) && |r.pcs| == |s.pcs| == |g.tasks|
            && r.pcs[t] == s.pcs[t] && r.arg[t] == s.arg[t] && r.ret[t] == s.ret[t] && g.tasks[t] == h.tasks[t]
  {}

  ghost predicate StepFits<M>(r: State<M>, g: History<M>, t: Tid) {
    && Shape(r) && t < |r.pcs| == |g.tasks| && Fits(r, t, g.tasks[t])
    && r.sent == g.puts && |r.taken| == g.takes && r.taken <= r.sent
  }

  lemma CallFits<M>(s: State<M>, h: History<M>, a: Step<M>)
    requires Legal(s, a) && Agrees(s, h) && (a.CallSend? || a.CallRecv?)
    ensures StepFits(Next(s, a), Recorded(h, s, a), a.t)
  {}

  lemma SenderFits<M>(s: State<M>, h: History<M>, t: Tid)
    requires Legal(s, Go(t)) && Agrees(s, h) && Sending(s.pcs[t])
    ensures StepFits(Next(s, Go(t)), Recorded(h, s, Go(t)), t)
  {
    assert Fits(s, t, h.tasks[t]);
  }

  lemma ReceiverFits<M>(s: State<M>, h: History<M>, t: Tid)
    requires Legal(s, Go(t)) && Agrees(s, h) && Receiving(s.pcs[t])
    requires s.active && s.pcs[t] == RecvTake ==> s.msgs != [] && s.sent == s.taken + s.msgs
    ensures StepFits(Next(s, Go(t)), Recorded(h, s, Go(t)), t)
  {
    assert Fits(s, t, h.tasks[t]);
  }

  lemma StepperFits<M>(s: State<M>, h: History<M>, a: Step<M>)
    requires Inv(s) && Legal(s, a) && Agrees(s, h)
    ensures !a.DestroyQueue? ==> StepFits(Next(s, a), Recorded(h, s, a), a.t)
  {
    if a.Go? {
      if Sending(s.pcs[a.t]) {
        SenderFits(s, h, a.t);
      } else {
        if s.active && s.pcs[a.t] == RecvTake {
          ReceiverFindsMessage(s, a.t);
        }
        ReceiverFits(s, h, a.t);
      }
    } else if !a.DestroyQueue? {
      CallFits(s, h, a);
    }
  }

  lemma StepAgrees<M>(s: State<M>, h: History<M>, a: Step<M>)
    requires Inv(s) && Legal(s, a) && Agrees(s, h)
    ensures Agrees(Next(s, a), Recorded(h, s, a))
  {
    StepperFits(s, h, a);
    var r, g := Next(s, a), Recorded(h, s, a);
    forall t | 0 <= t < |s.pcs| && (a.DestroyQueue? || t != a.t)
      ensures t < |r.pcs| && t < |r.arg| && t < |r.ret| && t < |g.tasks| && Fits(r, t, g.tasks[t])
    {
      OthersFit(s, h, a, t);
      assert Fits(s, t, h.tasks[t]);
    }
  }

  // ---------------------------------------------------------------- runs

  /** What the first i steps of a run record. */
  ghost function HistoryOf<M>(states: seq<State<M>>, steps: seq<Step<M>>, i: nat): History<M>
    requires i <= |steps| < |states|
  {
    if i == 0 then NoHistory(|states[0].pcs|)
    else Recorded(HistoryOf(states, steps, i - 1), states[i - 1], steps[i - 1])
  }

  lemma StartAgrees<M>(s: State<M>, capacity: int)
    requires Starts(s, capacity)
    ensures Agrees(s, NoHistory(|s.pcs|))
  {}

  lemma RunStepAgrees<M>(states: seq<State<M>>, steps: seq<Step<M>>, capacity: nat, i: nat)
    requires IsRun(states, steps) && Starts(states[0], capacity) && i < |steps|
    requires Agrees(states[i], HistoryOf(states, steps, i))
    ensures Agrees(states[i + 1], HistoryOf(states, steps, i + 1))
  {
    RunKeepsInv(states, steps, capacity, i);
    StepAgrees(states[i], HistoryOf(states, steps, i), steps[i]);
  }

  lemma {:induction false} RunAgrees<M>(states: seq<State<M>>, steps: seq<Step<M>>, capacity: nat, i: nat)
    requires IsRun(states, steps) && Starts(states[0], capacity) && i < |states|
    ensures Agrees(states[i], HistoryOf(states, steps, i))
    decreases i
  {
    if i == 0 {
      StartAgrees(states[0], capacity);
    } else {
      RunAgrees(states, steps, capacity, i - 1);
      RunStepAgrees(states, steps, capacity, i - 1);
    }
  }

  /**
   * The buffer's content is exactly what the callers sent: the messages appended are those given
   * to mqueue_send by the calls that put, in that order, and the messages removed their beginning.
   */
  lemma SentIsGiven<M>(states: seq<State<M>>, steps: seq<Step<M>>, capacity: nat, i: nat)
    requires IsRun(states, steps) && Starts(states[0], capacity) && i < |states|
    ensures var s, h := states[i], HistoryOf(states, steps, i);
            && h.takes <= |h.puts| && s.sent == h.puts && s.taken == h.puts[..h.takes]
            && (s.active ==> s.msgs == h.puts[h.takes..])
  {
    RunAgrees(states, steps, capacity, i);
    RunKeepsInv(states, steps, capacity, i);
  }

  /** A finished call returned 0 exactly if it put or took a message, and -1 otherwise. */
  lemma ReturnsZeroIffServed<M>(states: seq<State<M>>, steps: seq<Step<M>>, capacity: nat, i: nat, t: Tid)
    requires IsRun(states, steps) && Starts(states[0], capacity) && i < |states|
    requires t < |states[i].pcs| && states[i].pcs[t] == Idle
    ensures t < |HistoryOf(states, steps, i).tasks| && t < |states[i].ret|
    ensures var account := HistoryOf(states, steps, i).tasks[t];
            account.called ==> states[i].ret[t] == if account.served then 0 else -1
  {
    RunAgrees(states, steps, capacity, i);
    assert Fits(states[i], t, HistoryOf(states, steps, i).tasks[t]);
  }

  /** A receiver that was served finds in its variable the message it took, until its next call. */
  lemma ReceiverHoldsItsMessage<M>(states: seq<State<M>>, steps: seq<Step<M>>, capacity: nat, i: nat, t: Tid)
    requires IsRun(states, steps) && Starts(states[0], capacity) && i < |states| && t < |states[i].pcs|
    ensures t < |HistoryOf(states, steps, i).tasks| && t < |states[i].arg|
    ensures var account := HistoryOf(states, steps, i).tasks[t];
            account.called && account.given == None && account.served ==> account.got == Some(states[i].arg[t])
  {
    RunAgrees(states, steps, capacity, i);
    assert Fits(states[i], t, HistoryOf(states, steps, i).tasks[t]);
  }

  /** A sender's message is the one it was given, from the call until the call is over. */
  lemma SenderKeepsItsMessage<M>(states: seq<State<M>>, steps: seq<Step<M>>, capacity: nat, i: nat, t: Tid)
    requires IsRun(states, steps) && Starts(states[0], capacity) && i < |states|
    requires t < |states[i].pcs| && Sending(states[i].pcs[t])
    ensures t < |HistoryOf(states, steps, i).tasks| && t < |states[i].arg|
    ensures HistoryOf(states, steps, i).tasks[t].given == Some(states[i].arg[t])
  {
    RunAgrees(states, steps, capacity, i);
    assert Fits(states[i], t, HistoryOf(states, steps, i).tasks[t]);
  }
}
