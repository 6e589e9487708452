/** Ending a connection: the idle shutdown and what it may not lose, the report of
    a failure, and the decision to reconnect. */
module Shutdown {
  import opened Bytes
  import opened Pool
  import opened Engine
  import opened Traces
  import opened Core
  import opened CoreMoves
  import opened Effects
  import opened Invariant
  import opened Steps
  import opened HandlerSteps
  import opened PingSteps
  import opened Progress
  import opened Runs
  import Framing

  // ----- the idle timer -----

  /** In every state of every run: on a connected connection the idle timer exists
      exactly when an idle timeout is set, and runs only when nothing is pending. */
  lemma IdleTimerMeaning(disablePing: bool, states: seq<State>, steps: seq<Step>, i: nat)
    requires Execution(disablePing, states, steps) && i < |states|
    requires states[i].ctl.pc != Gone && states[i].link.status == Connected
    ensures states[i].link.timer != NoTimer <==> states[i].link.idleTimeout != 0
    ensures states[i].link.timer == Running ==> states[i].pool.pending == []
  {
    hide Execution, CoreOk, DeliveredOk, PingOk, FirstOk, LogMatches;
    InvAlways(disablePing, states, steps, i);
  }

  /** So the check that guards the idle disconnect never fails: a timer that fires
      on a connected connection always begins the idle shutdown. */
  lemma IdleCheckNeverFails(disablePing: bool, states: seq<State>, steps: seq<Step>, i: nat)
    requires Execution(disablePing, states, steps) && i < |steps|
    requires steps[i] == OnConnTimer && states[i].link.status == Connected
    ensures states[i].pool.pending == [] && states[i].link.idleTimeout != 0
    ensures states[i + 1].link.status == IdleTimeout && states[i + 1].link.timer == NoTimer
    ensures states[i + 1].ctl.batch == [] && states[i + 1].pool == states[i].pool
  {
    assert Enabled(states[i], steps[i]) && states[i + 1] == Do(states[i], steps[i]);
    InvAlways(disablePing, states, steps, i);
    QuietBatch(states[i]);
    hide Inv, Execution;
    IdleTimerMeaning(disablePing, states, steps, i);
  }

  lemma QuietBatch(s: State)
    requires Inv(s) && s.ctl.pc == Quiet
    ensures s.ctl.batch == []
  {
    hide CoreOk, DeliveredOk, Coupled, PingOk, FirstOk, LogMatches;
  }

  // ----- nothing is lost -----

  lemma ForsakenNothing(p: Pool)
    requires p.pending == []
    ensures Forsaken(p) == p
  {
    hide REFUSAL;
    assert LostAll(p.txns, []) == p.txns;
    assert p.done + [] == p.done;
  }

  /** What the report of a lost idle connection comes to. */
  lemma IdleLoss(s: State, isError: bool, away: set<Handle>)
    requires CoreOk(s, away) && s.link.status == IdleTimeout && s.pool.pending == []
    ensures ConnFail(s, isError) == Emit(TearDown(s), ConnDisconnect)
  {
    hide CoreOk, ConnFail, Marks;
    ConnFailIs(s, isError, away);
    ForsakenNothing(s.pool);
    assert Errors([]) == [];
    assert LossReport(s, isError) == [ConnDisconnect];
    EmitAllOne(TearDown(s), ConnDisconnect);
  }

  /** With nothing pending, reading only takes frames off. */
  lemma {:induction false} ReadDropsAll(s: State)
    requires forall id :: PendingHolder(s.pool, id) == None
    ensures var r := ReadLoop(s).0;
            && r.pool == s.pool && r.ctl == s.ctl && r.link == s.link.(inbuf := r.link.inbuf)
            && r.hist == s.hist.(frames := r.hist.frames)
    ensures ReadLoop(s).1 != PingAnswered
    decreases |s.link.inbuf|
  {
    hide Framing.NextFrame, ReadLoop, PendingHolder;
    ReadLoopFlat(s);
    var n := Framing.NextFrame(s.link.inbuf);
    if n.Got? {
      assert PendingHolder(s.pool, n.msg.id) == None;
      ReadDropsAll(Consume(s, n.msg, n.rest));
    }
  }

  lemma NobodyPending(p: Pool)
    requires PoolOk(p, {}) && p.pending == []
    ensures forall id :: PendingHolder(p, id) == None
  {
    hide NoDup, Accounted, DeferredOk, TxnsOk;
  }

  predicate IdleStays(s: State, r: State) {
    && r.hist.printed == s.hist.printed
    && ((r.link.status == IdleTimeout && r.hist.log == s.hist.log)
        || (r.link.status == Disconnected && r.hist.log == s.hist.log + [Queues(ConnDisconnect)]
            && r.ctl.batch == [ConnDisconnect] && r.pool == s.pool))
  }

  /** Reading during an idle shutdown, also a stream that turns out malformed. */
  lemma IdleRead(s: State, b: seq<byte>)
    requires Inv(s) && s.ctl.pc == Quiet && s.link.io == Up && s.link.status == IdleTimeout
    ensures IdleStays(s, ReadOn(Append(Enter(s), b)))
  {
    hide Inv, CoreOk, ReadLoop, ConnFail, Exact;
    Entered(s);
    CoreAppend(Enter(s), b, {});
    var t := Append(Enter(s), b);
    IdlePending(s);
    NobodyPending(s.pool) by { PoolPart(s, {}); }
    ReadDropsAll(t);
    CoreReadIdle(t);
    var (r, end) := ReadLoop(t);
    if end == Failed {
      var u := ResetTimer(r);
      CoreTimer(r, u, {});
      IdleLoss(u, true, {});
    }
  }

  lemma CoreReadIdle(t: State)
    requires CoreOk(t, {}) && t.pool.pending == []
    ensures CoreOk(ReadLoop(t).0, {})
  {
    hide CoreOk, ReadLoop;
    PoolPart(t, {});
    NobodyPending(t.pool);
    CoreReadDrops(t);
  }

  lemma {:induction false} CoreReadDrops(s: State)
    requires CoreOk(s, {}) && forall id :: PendingHolder(s.pool, id) == None
    ensures CoreOk(ReadLoop(s).0, {})
    decreases |s.link.inbuf|
  {
    hide Framing.NextFrame, ReadLoop, PendingHolder, CoreOk;
    ReadLoopFlat(s);
    var n := Framing.NextFrame(s.link.inbuf);
    if n.Got? {
      assert PendingHolder(s.pool, n.msg.id) == None;
      CoreConsume(s, {});
      CoreReadDrops(Consume(s, n.msg, n.rest));
    }
  }

  lemma IdlePending(s: State)
    requires Inv(s) && s.ctl.pc != Gone && s.link.status == IdleTimeout
    ensures s.pool.pending == [] && s.link.io == Up && !Cleaning(s.ctl.pc) && s.link.timer == NoTimer
  {
    hide CoreOk, DeliveredOk, PingOk, FirstOk, LogMatches, CtlOk;
  }

  /** No transaction timer runs during an idle shutdown. */
  lemma IdleTimers(s: State, h: Handle)
    requires Inv(s) && s.ctl.pc == Quiet && s.link.status == IdleTimeout && h in s.pool.txns
    ensures !s.pool.txns[h].timer
  {
    hide Inv, NoDup, Accounted, DeferredOk, Indexed, Exact;
    IdlePending(s);
    Entered(s);
    PoolPart(s, {}) by { hide PoolOk; }
    hide CoreOk;
  }

  /** During an idle shutdown nothing is printed, nothing is queued for the user
      and no transaction changes hands, until the connection is down; that is
      reported as one CONN_DISCONNECT and nothing else. */
  lemma IdleStep(s: State, a: Step)
    requires Inv(s) && Enabled(s, a) && s.link.status == IdleTimeout
    ensures IdleStays(s, Do(s, a))
  {
    hide Inv, CoreOk, ReadOn, Append, ConnFail, DrainAll, Move, Erase, Defer, FreeAll, FreeId, PingPrinted, Add;
    NotGone(s, a);
    IdlePending(s);
    match a
    case OnLinkLost(isError) =>
      Entered(s) by { hide Exact; }
      QuietBatch(s);
      IdleLoss(Enter(s), isError, {});
    case OnRead(input) =>
      if input.Some? { IdleRead(s, input.value); }
    case OnTransTimer(h) => IdleTimers(s, h);
    case DrainDeferred => DrainKeepsLink(s);
    case _ =>
  }

  lemma {:induction false} DrainKeepsLink(s: State)
    ensures var r := DrainAll(s); r.hist == s.hist && r.link == s.link.(timer := r.link.timer)
    decreases |s.pool.delayRm|
  {
    hide DrainHead;
    if s.pool.delayRm != [] && s.pool.delayRm[0] in s.pool.txns {
      DrainHeadShorter(s.pool);
      DrainKeepsLink(DeleteNow(s, DrainHead(s.pool)));
    }
  }

  /** This step is the `send` of a new transaction with at least one parameter. */
  predicate SendsNew(s: State, a: Step, h: Handle) {
    a == Step.Send(h) && h in s.pool.txns && s.pool.txns[h].status == Status.New && s.pool.txns[h].request != []
  }

  lemma SentIsReady(s: State, a: Step, h: Handle)
    requires Enabled(s, a) && SendsNew(s, a, h) && s.link.status != Connected
    ensures h in Do(s, a).pool.ready
  {
    hide Without;
  }

  /** Over a stretch of a run on which the connection is shutting down for
      idleness: the event log gains nothing, or just CONN_DISCONNECT when the
      connection goes down; every transaction that was waiting to be sent, and
      every one sent meanwhile, still waits, in `send` order, unless deleted. */
  lemma IdleShutdownLossless(disablePing: bool, states: seq<State>, steps: seq<Step>, i: nat, j: nat, k: nat, h: Handle)
    requires Execution(disablePing, states, steps) && i <= k <= j < |states|
    requires forall n :: i <= n < j ==> states[n].link.status == IdleTimeout
    requires states[j].link.status in {IdleTimeout, Disconnected}
    requires h in states[k].pool.ready || (k < j && SendsNew(states[k], steps[k], h))
    requires h in states[j].pool.txns
    ensures states[j].hist.log == states[i].hist.log
            || (states[j].link.status == Disconnected && states[j].hist.log == states[i].hist.log + [Queues(ConnDisconnect)])
    ensures h in states[j].pool.ready
    ensures Sorted(Orders(states[j].pool.txns, states[j].pool.ready))
  {
    IdleStretch(disablePing, states, steps, i, j);
    hide Do, Enabled;
    var n := if h in states[k].pool.ready then k else k + 1;
    if n == k + 1 {
      assert Enabled(states[k], steps[k]) && states[n] == Do(states[k], steps[k]);
      SentIsReady(states[k], steps[k], h);
    }
    IdleStretch(disablePing, states, steps, n, j);
    StillReady(disablePing, states, steps, n, j, h);
    SentAtMostOnce(disablePing, states, steps, j, h);
    hide Execution, Sorted, TimesPrinted;
    SortedSuffix(Paid(states[j].hist.printed), Orders(states[j].pool.txns, states[j].pool.ready));
  }

  lemma SortedSuffix(a: seq<nat>, b: seq<nat>)
    requires Sorted(a + b)
    ensures Sorted(b)
  {
    assert forall i :: 0 <= i < |b| ==> (a + b)[|a| + i] == b[i];
  }

  lemma {:induction false} IdleStretch(disablePing: bool, states: seq<State>, steps: seq<Step>, i: nat, j: nat)
    requires Execution(disablePing, states, steps) && i <= j < |states|
    requires forall n :: i <= n < j ==> states[n].link.status == IdleTimeout
    ensures states[j].hist.printed == states[i].hist.printed
    ensures states[j].hist.log == states[i].hist.log
            || (states[j].link.status == Disconnected && states[j].hist.log == states[i].hist.log + [Queues(ConnDisconnect)])
    decreases j
  {
    hide Inv, Do, Enabled;
    if i < j {
      IdleStretch(disablePing, states, steps, i, j - 1);
      InvAlways(disablePing, states, steps, j - 1);
      assert Enabled(states[j - 1], steps[j - 1]);
      IdleStep(states[j - 1], steps[j - 1]);
    }
  }

  /** A ready transaction can stop being ready only by being printed or deleted. */
  lemma StillReady(disablePing: bool, states: seq<State>, steps: seq<Step>, i: nat, j: nat, h: Handle)
    requires Execution(disablePing, states, steps) && i <= j < |states|
    requires h in states[i].pool.ready && h in states[j].pool.txns
    requires states[j].hist.printed == states[i].hist.printed
    ensures h in states[j].pool.ready
  {
    InvAlways(disablePing, states, steps, i);
    InvAlways(disablePing, states, steps, j);
    ForwardOnly(disablePing, states, steps, i, j, h);
    hide Execution;
    ReadyIsUnprinted(states[i], h);
    UnprintedIsReady(states[j], h, states[i].pool.txns[h]);
  }

  lemma ReadyIsUnprinted(s: State, h: Handle)
    requires Inv(s) && h in s.pool.ready
    ensures h in s.pool.txns && s.pool.txns[h].status == Status.Ready && !WasPrinted(s.hist.printed, h)
    ensures h !in s.pool.freed
  {
    hide InSendOrder, WireOk, PastOk, InputOk, TraceOk, BatchOk, RepliesOk, DeliveredOk, Alive, WasPrinted, NoDup,
         Indexed, DeferredOk, TxnsOk;
  }

  lemma UnprintedIsReady(s: State, h: Handle, was: Txn)
    requires Inv(s) && h in s.pool.txns && !WasPrinted(s.hist.printed, h)
    requires was.status == Status.Ready && Later(was, s.pool.txns[h])
    ensures h in s.pool.ready
  {
    hide InSendOrder, WireOk, PastOk, InputOk, TraceOk, BatchOk, RepliesOk, DeliveredOk, Alive, WasPrinted, NoDup,
         Ledger;
  }

  // ----- the report of a failure -----

  /** When the I/O layer reports the connection gone, the batch is: NOCONNECT for
      each ready transaction, unless the connection was closing for idleness;
      TRANS_ERROR for each pending one; one connection event. All in queue order;
      the pending transactions are done, the ready ones stay, the link is down. */
  lemma FailureReport(disablePing: bool, states: seq<State>, steps: seq<Step>, i: nat, isError: bool)
    requires Execution(disablePing, states, steps) && i < |steps| && steps[i] == OnLinkLost(isError)
    ensures var s, r := states[i], states[i + 1];
            && r.ctl.batch == (if s.link.status == IdleTimeout then [] else NoConnects(s.pool.ready))
                              + Errors(s.pool.pending) + [FinalEvent(s.link.status, isError)]
            && r.pool.ready == s.pool.ready && r.pool.pending == [] && r.pool.done == s.pool.done + s.pool.pending
            && (forall h :: h in s.pool.pending ==> h in r.pool.txns && r.pool.txns[h].fate == Lost)
            && (forall h :: h in s.pool.txns && h !in s.pool.pending ==> h in r.pool.txns && r.pool.txns[h] == s.pool.txns[h])
            && r.link.status == Disconnected && r.link.outbuf == [] && r.link.inbuf == []
  {
    hide Inv, CoreOk, ConnFail, Exact, NoConnects, Errors, FinalEvent, Marks;
    assert Enabled(states[i], steps[i]) && states[i + 1] == Do(states[i], steps[i]);
    InvAlways(disablePing, states, steps, i);
    var s := states[i];
    Entered(s);
    QueueFacts(s, {});
    ConnFailIs(Enter(s), isError, {});
    hide Execution, REFUSAL;
  }

  /** The last entry of a log. */
  function LastMark(log: seq<Mark>): Mark
    requires log != []
  {
    log[|log| - 1]
  }

  lemma ConnFailEnds(s: State, isError: bool, away: set<Handle>)
    requires CoreOk(s, away)
    ensures var r := ConnFail(s, isError);
            && r.hist.log != [] && LastMark(r.hist.log) == Queues(FinalEvent(s.link.status, isError))
            && r.link.status == Disconnected
  {
    hide CoreOk, ConnFail, Forsaken, Errors, NoConnects, FinalEvent;
    ConnFailIs(s, isError, away);
  }

  /** A disconnect that was requested, by the user or by the idle timer, is always
      reported as CONN_DISCONNECT, even when the I/O layer calls it an error or
      the parser gives up on the stream. */
  lemma RequestedDisconnect(disablePing: bool, states: seq<State>, steps: seq<Step>, i: nat)
    requires Execution(disablePing, states, steps) && i < |steps|
    requires states[i].link.status in {Disconnecting, IdleTimeout} && states[i + 1].link.status == Disconnected
    ensures var log := states[i + 1].hist.log; log != [] && LastMark(log) == Queues(ConnDisconnect)
  {
    assert Enabled(states[i], steps[i]) && states[i + 1] == Do(states[i], steps[i]);
    InvAlways(disablePing, states, steps, i);
    hide Execution, Inv, Do, Enabled;
    DisconnectStep(states[i], steps[i]);
  }

  lemma DisconnectStep(s: State, a: Step)
    requires Inv(s) && Enabled(s, a) && s.link.status in {Disconnecting, IdleTimeout}
    requires Do(s, a).link.status == Disconnected
    ensures var log := Do(s, a).hist.log; log != [] && LastMark(log) == Queues(ConnDisconnect)
  {
    hide Inv, CoreOk, ReadOn, Append, ConnFail, DrainAll, Move, Erase, Defer, FreeAll, FreeId, PingPrinted, Add,
         Exact, LastMark;
    NotGone(s, a);
    ClosingState(s);
    match a
    case OnLinkLost(isError) =>
      Entered(s);
      ConnFailEnds(Enter(s), isError, {});
    case OnRead(input) =>
      if input.Some? { DisconnectRead(s, input.value); }
    case DrainDeferred => DrainKeepsLink(s);
    case _ =>
  }

  lemma ClosingState(s: State)
    requires Inv(s) && s.ctl.pc != Gone && s.link.status in {Disconnecting, IdleTimeout}
    ensures s.link.io == Up && !Cleaning(s.ctl.pc)
  {
    hide CoreOk, DeliveredOk, PingOk, FirstOk, LogMatches, CtlOk;
  }

  lemma DisconnectRead(s: State, b: seq<byte>)
    requires Inv(s) && s.ctl.pc == Quiet && s.link.status in {Disconnecting, IdleTimeout} && s.link.io == Up
    requires ReadOn(Append(Enter(s), b)).link.status == Disconnected
    ensures var log := ReadOn(Append(Enter(s), b)).hist.log; log != [] && LastMark(log) == Queues(ConnDisconnect)
  {
    hide Inv, CoreOk, ReadLoop, ConnFail, Exact, LinkPhaseOf, Append, PingSettled, LastMark;
    AppendInv(s, b);
    AppendKeeps(s, b);
    var t := Append(Enter(s), b);
    StatusLive(s);
    ReadFrame(t, {});
    PingPointer(t);
    CoreReadLoop(t, {});
    var (r, end) := ReadLoop(t);
    var u := if r.pool.pending == [] then ResetTimer(r) else r;
    CoreTimer(r, u, {});
    ConnFailEnds(u, true, {});
  }

  lemma StatusLive(s: State)
    requires Inv(s) && s.ctl.pc == Quiet && s.link.status in {Disconnecting, IdleTimeout}
    ensures LinkPhaseOf(s.hist.log) == Live
  {
    hide CoreOk, DeliveredOk, PingOk, FirstOk, Coupled, CtlOk, LinkPhaseOf;
  }

  lemma PingPointer(t: State)
    requires Inv(t) && t.ctl.pc != Gone
    ensures t.link.pingTxn.Some? && t.link.pingTxn.value in t.pool.txns ==> t.pool.txns[t.link.pingTxn.value].ping
  {
    hide CoreOk, DeliveredOk, Coupled, FirstOk, LogMatches, CtlOk;
  }

  // ----- reconnecting -----

  lemma {:induction false} DrainReady(s: State)
    requires Draining(s)
    ensures forall h :: h in DrainAll(s).pool.ready <==> h in s.pool.ready && h !in s.pool.delayRm
    decreases |s.pool.delayRm|
  {
    hide Draining, DeleteNow, DrainHead, Without;
    if s.pool.delayRm != [] {
      DrainOne(s);
      var r := DeleteNow(s, DrainHead(s.pool));
      DrainReady(r);
      var h := s.pool.delayRm[0];
      assert h !in r.pool.ready by { ErasedNotReady(r, h); }
    }
  }

  lemma ErasedNotReady(r: State, h: Handle)
    requires Draining(r) && h !in r.pool.txns
    ensures h !in r.pool.ready
  {
    hide Coupled, PingOk, FirstOk, CoreOk;
    QueueFacts(r, Parked(r.pool));
  }

  lemma DrainingIn(s: State)
    requires Inv(s) && s.ctl.pc == Deliver && s.ctl.batch == []
    ensures Draining(s)
  {
    hide CoreOk, Coupled, PingOk, FirstOk, LogMatches, DeliveredOk;
    assert Away(s) == Parked(s.pool);
  }

  /** Some transaction was sent, waits, and is not deleted. */
  predicate WorkWaits(s: State) {
    exists h :: h in s.pool.ready && h !in s.pool.delayRm
  }

  lemma DrainDecides(s: State)
    requires Inv(s) && Enabled(s, DrainDeferred)
    ensures Do(s, DrainDeferred).ctl.pc == Leave(s.link.status == Disconnected && WorkWaits(s))
  {
    hide Inv, Draining, DrainAll, WorkWaits;
    DrainingIn(s);
    DrainKeepsLink(s);
    SomethingWaits(s);
  }

  lemma SomethingWaits(s: State)
    requires Draining(s)
    ensures DrainAll(s).pool.ready != [] <==> WorkWaits(s)
  {
    hide Draining, DrainAll;
    DrainReady(s);
    var q := DrainAll(s).pool.ready;
    if q != [] {
      assert q[0] in q;
    }
  }

  /** The decision stands until it is carried out, whatever other threads do. */
  lemma LeaveStays(s: State, a: Step)
    requires Inv(s) && Enabled(s, a) && s.ctl.pc.Leave? && !a.Reconnect?
    ensures Do(s, a).ctl.pc == s.ctl.pc
  {
    hide Inv, SendMessages, DrainAll, Move, FreeId, PingPrinted, Erase, Defer, ReadOn, ConnFail, DoResume, Demolish, Add;
    LeavingNotInUse(s);
    match a
    case Send(h) =>
      if Sendable(s.pool.txns[h]) { InvCore(s); ReadySends(s, h); }
    case _ =>
  }

  lemma LeavingNotInUse(s: State)
    requires Inv(s) && s.ctl.pc.Leave?
    ensures !s.ctl.inUse
  {
    hide CoreOk, DeliveredOk, Coupled, PingOk, FirstOk, LogMatches;
  }

  lemma {:induction false} LeaveUntil(disablePing: bool, states: seq<State>, steps: seq<Step>, i: nat, j: nat)
    requires Execution(disablePing, states, steps) && i <= j < |states| && states[i].ctl.pc.Leave?
    requires forall k :: i <= k < j ==> !steps[k].Reconnect?
    ensures states[j].ctl.pc == states[i].ctl.pc
    decreases j
  {
    hide Inv, Do, Enabled;
    if i < j {
      LeaveUntil(disablePing, states, steps, i, j - 1);
      InvAlways(disablePing, states, steps, j - 1);
      assert Enabled(states[j - 1], steps[j - 1]);
      LeaveStays(states[j - 1], steps[j - 1]);
    }
  }

  /** What reconnecting does: a new attempt if that was decided, nothing has opened a
      connection meanwhile, and it can be created; otherwise nothing. */
  lemma ReconnectDoes(s: State, created: bool)
    requires Inv(s) && s.ctl.pc.Leave?
    ensures var r := DoReconnect(s, created); var goes := s.ctl.pc.reconnect && s.link.status == Disconnected && created;
            && r.hist.log == (if goes then s.hist.log + [Attempt] else s.hist.log)
            && r.link == (if goes then s.link.(io := Opening, status := Connecting) else s.link)
            && r.pool == s.pool
  {
    hide CoreOk, DeliveredOk, PingOk, FirstOk, LogMatches, CtlOk;
  }

  lemma ReconnectIs(s: State, created: bool)
    requires Enabled(s, Step.Reconnect(created))
    ensures s.ctl.pc.Leave? && Do(s, Step.Reconnect(created)) == DoReconnect(s, created)
  {
    hide DoReconnect;
  }

  /** The event handler decides, when it has drained the deferred deletions, to open a
      new connection exactly when the old one is down and some transaction that was
      sent, and not deleted, still waits; also when the connection object is about
      to be destroyed. It acts on that decision later, whatever calls fall between:
      the attempt is made exactly when it was decided on, no other call has opened a
      connection by then, and the connection can be created. */
  lemma ReconnectsIffWorkWaits(disablePing: bool, states: seq<State>, steps: seq<Step>, i: nat, j: nat, created: bool)
    requires Execution(disablePing, states, steps) && i < j < |steps|
    requires steps[i] == DrainDeferred && steps[j] == Step.Reconnect(created)
    requires forall k :: i < k < j ==> !steps[k].Reconnect?
    ensures states[j].ctl.pc == Leave(states[i].link.status == Disconnected && WorkWaits(states[i]))
    ensures states[j + 1].hist.log == states[j].hist.log + [Attempt] <==>
            && states[i].link.status == Disconnected && WorkWaits(states[i])
            && states[j].link.status == Disconnected && created
    ensures states[j + 1].hist.log == states[j].hist.log || states[j + 1].hist.log == states[j].hist.log + [Attempt]
  {
    hide Inv, Do, Enabled, WorkWaits;
    assert Enabled(states[i], steps[i]) && Enabled(states[j], steps[j]);
    InvAlways(disablePing, states, steps, i);
    InvAlways(disablePing, states, steps, j);
    DrainDecides(states[i]);
    LeaveUntil(disablePing, states, steps, i + 1, j);
    ReconnectIs(states[j], created);
    ReconnectDoes(states[j], created);
    hide DoReconnect;
  }
}
