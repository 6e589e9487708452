/** The timeout timers of transactions: when one runs, and exactly which ones are
    still running when their transaction is freed. */
module Timers {
  import opened Bytes
  import opened Pool
  import opened Engine
  import opened Traces
  import opened Core
  import opened CoreMoves
  import opened Effects
  import opened Invariant
  import opened Steps
  import opened HandlerSteps
  import opened PingSteps
  import opened Progress
  import opened Runs
  import opened Shutdown
  import opened PingWindow
  import opened Intake
  import Framing
  import Verdicts
  import KeyValue

  // ----- transactions that stay pending -----

  /** No transaction comes or goes, those not done in `r` are as they were in `s`;
      nothing is sent, and the settings stay. */
  predicate OnlyEnds(s: State, r: State) {
    && r.pool.txns.Keys == s.pool.txns.Keys
    && r.hist.sends == s.hist.sends && r.link.idleTimeout == s.link.idleTimeout && r.pool.newq == s.pool.newq
    && forall h :: h in r.pool.txns && r.pool.txns[h].status != Status.Done
         ==> h in s.pool.txns && r.pool.txns[h] == s.pool.txns[h]
  }

  lemma AnswerStill(s: State, h: Handle, m: Framing.Message)
    requires h in s.pool.txns && s.pool.txns[h].status == Status.Pending
    ensures OnlyEnds(s, Answer(s, h, m)) && OnlyEnds(s, Report(Answer(s, h, m), h))
  {
    hide BuildResponse, Without;
  }

  lemma {:induction false} ReadLoopStill(s: State)
    ensures OnlyEnds(s, ReadLoop(s).0)
    decreases |s.link.inbuf|
  {
    hide Framing.NextFrame, BuildResponse, Report, Answer, ReadLoop;
    ReadLoopFlat(s);
    var n := Framing.NextFrame(s.link.inbuf);
    if n.Got? {
      var s1 := Consume(s, n.msg, n.rest);
      match PendingHolder(s.pool, n.msg.id)
      case None => ReadLoopStill(s1);
      case Some(h) =>
        AnswerStill(s1, h, n.msg);
        AnswerReportFrame(s1, h, n.msg);
        if s.link.pingTxn != Some(h) {
          ReadLoopStill(Report(Answer(s1, h, n.msg), h));
        }
    }
  }

  lemma ConnFailStill(s: State, isError: bool, away: set<Handle>)
    requires CoreOk(s, away)
    ensures OnlyEnds(s, ConnFail(s, isError))
  {
    hide CoreOk, ConnFail, LossReport, Marks, REFUSAL;
    ConnFailIs(s, isError, away);
  }

  lemma ReadOnStill(s: State, away: set<Handle>)
    requires CoreOk(s, away)
    requires s.link.pingTxn.Some? && s.link.pingTxn.value in s.pool.txns ==> s.pool.txns[s.link.pingTxn.value].ping
    ensures OnlyEnds(s, ReadOn(s))
  {
    hide CoreOk, ReadLoop, ConnFail, Without;
    ReadLoopStill(s);
    CoreReadLoop(s, away);
    var (r, end) := ReadLoop(s);
    var u := if r.pool.pending == [] then ResetTimer(r) else r;
    CoreTimer(r, u, away);
    if end == Failed {
      ConnFailStill(u, true, away);
    }
  }

  lemma OnReadStill(s: State, b: seq<byte>)
    requires Inv(s) && s.ctl.pc == Quiet && s.link.io == Up
    ensures OnlyEnds(s, ReadOn(Append(Enter(s), b)))
  {
    hide CoreOk, ReadOn, Append, Alive, DeliveredOk, Exact;
    AppendInv(s, b);
    AppendKeeps(s, b);
    var t := Append(Enter(s), b);
    PingPointer(t);
    ReadOnStill(t, {});
  }

  // ----- when a timer runs -----

  /** What a step does to the timer of a transaction that is pending after it. */
  predicate TimerKept(t: Txn, u: Txn, touched: bool) {
    && u.timeout == t.timeout
    && if t.status == Status.Pending then u.timer == t.timer || touched else u.timer == (t.timeout != 0)
  }

  lemma SentKeeps(s: State, r: State, h: Handle)
    requires r.pool.txns == SentAll(s.pool.txns, s.pool.ready)
    requires forall g :: g in s.pool.ready ==> g in s.pool.txns && s.pool.txns[g].status == Status.Ready
    ensures r.pool.txns.Keys == s.pool.txns.Keys
    ensures h in s.pool.txns && r.pool.txns[h].status == Status.Pending ==>
              TimerKept(s.pool.txns[h], r.pool.txns[h], false)
  {
  }

  lemma ResumeKeeps(s: State, h: Handle)
    requires Inv(s) && s.ctl.pc.Cleaned?
    ensures DoResume(s).pool.txns.Keys == s.pool.txns.Keys
    ensures h in s.pool.txns && DoResume(s).pool.txns[h].status == Status.Pending ==>
              TimerKept(s.pool.txns[h], DoResume(s).pool.txns[h], false)
  {
    hide Inv, CoreOk, OpenUp, ReadOn, ConnFail, WasPrinted, SentAll, TimerKept;
    InvParts(s);
    match s.ctl.pc.k
    case FromConnected =>
      OpenUpPrints(s, h);
      SentKeeps(s, OpenUp(s), h);
    case FromRead =>
      OpenUpPrints(s, h);
      OpenUpInv(s) by { hide Exact; }
      var t := Goto(OpenUp(s), Deliver);
      InvCore(t);
      CoreTimer(t, OpenUp(s), Away(t));
      ReadOnStill(OpenUp(s), Away(t));
      SentKeeps(s, OpenUp(s), h);
    case FromTimeout =>
      InvCore(s);
      var t := s.(link := s.link.(pingTxn := None));
      CoreTimer(s, t, Away(s));
      ConnFailStill(t, true, Away(s));
      if h in s.pool.txns && DoResume(s).pool.txns[h].status == Status.Pending {
        KeptSame(s.pool.txns, DoResume(s).pool.txns, h);
      }
  }

  lemma KeptSame(txns: map<Handle, Txn>, after: map<Handle, Txn>, h: Handle)
    requires h in txns && h in after && after[h] == txns[h] && txns[h].status == Status.Pending
    ensures TimerKept(txns[h], after[h], false)
  {
  }

  lemma SendTimer(s: State, g: Handle, h: Handle)
    requires Inv(s) && Enabled(s, Step.Send(g)) && h in s.pool.txns
    requires h in Do(s, Step.Send(g)).pool.txns && Do(s, Step.Send(g)).pool.txns[h].status == Status.Pending
    ensures TimerKept(s.pool.txns[h], Do(s, Step.Send(g)).pool.txns[h], false)
  {
    hide Inv, CoreOk, PromoteAll, Without, WasPrinted;
    InvCore(s);
    if Sendable(s.pool.txns[g]) {
      CoreMovesReady(s, g);
      NewNotReady(s.pool, g, Queued(s.pool.txns[g], s.hist.sends));
      if s.link.status == Connected {
        PingWindow.PromotedPrints(MakeReady(s, g), Away(s), h);
        ConnectedReady(s);
      }
    }
  }

  lemma {:induction false} DrainKeepsTxns(s: State, h: Handle)
    ensures h in DrainAll(s).pool.txns ==> h in s.pool.txns && DrainAll(s).pool.txns[h] == s.pool.txns[h]
    decreases |s.pool.delayRm|
  {
    hide Without;
    if s.pool.delayRm != [] && s.pool.delayRm[0] in s.pool.txns {
      DrainHeadShorter(s.pool);
      DrainKeepsTxns(DeleteNow(s, DrainHead(s.pool)), h);
    }
  }

  lemma ConnectedTxns(s: State, id: nat, n: nat)
    requires Enabled(s, OnConnected(id, n))
    ensures DoOnConnected(s, id, n).pool.txns
            == if s.link.disablePing then s.pool.txns else s.pool.txns[s.pool.next := PingTxn(id)]
  {
    hide FreeId, PingPrinted, Without;
    if !s.link.disablePing { PingParts(s, id); }
  }

  lemma ConnTimerStill(s: State)
    ensures DoOnConnTimer(s).pool.txns == s.pool.txns
  {
    hide Without;
  }

  lemma HandlerTimer(s: State, a: Step, h: Handle)
    requires Inv(s) && Enabled(s, a) && EntersHandler(a) && h in s.pool.txns
    requires h in Do(s, a).pool.txns && Do(s, a).pool.txns[h].status == Status.Pending
    ensures TimerKept(s.pool.txns[h], Do(s, a).pool.txns[h], a == OnTransTimer(h))
  {
    hide Inv, CoreOk, ReadOn, Append, ConnFail, FreeId, PingPrinted, DoOnConnected, DoOnConnTimer;
    EntersFromQuiet(s, a);
    match a
    case OnConnected(id, n) =>
      InvParts(s);
      ConnectedTxns(s, id, n);
    case OnConnTimer => ConnTimerStill(s);
    case OnRead(input) =>
      if input.Some? { OnReadStill(s, input.value); }
    case OnLinkLost(isError) =>
      Entered(s) by { hide Exact; }
      ConnFailStill(Enter(s), isError, {});
    case _ =>
  }

  /** The timer of a pending transaction changes only when it fires or when the
      transaction is deleted; it starts, if a timeout is set, when the transaction
      becomes pending. */
  lemma PendingTimer(s: State, a: Step, h: Handle)
    requires Inv(s) && Enabled(s, a) && h in s.pool.txns
    requires h in Do(s, a).pool.txns && Do(s, a).pool.txns[h].status == Status.Pending
    ensures TimerKept(s.pool.txns[h], Do(s, a).pool.txns[h], a == OnTransTimer(h) || a == Delete(h))
  {
    hide Inv, CoreOk, DrainAll, Erase, FreeId, PingPrinted, DoSend, DoResume, DoOnConnected, ReadOn, ConnFail, Append,
         Without;
    if EntersHandler(a) {
      HandlerTimer(s, a, h);
    } else {
      match a
      case Send(g) => SendTimer(s, g, h);
      case Delete(g) => DeleteMoves(s, g);
      case ResumeHandler => ResumeKeeps(s, h);
      case DrainDeferred => DrainKeepsTxns(s, h);
      case New(id) => InvParts(s);
      case DeletePing =>
        InvParts(s);
        PingPointer(s);
      case _ =>
    }
  }

  /** Sent with a timeout, and neither answered, lost, nor reported late. */
  predicate InTime(t: Txn, ph: Phase) {
    t.status == Status.Pending && !t.ping && t.timeout != 0 && ph == Open
  }

  lemma {:induction false} OpenBefore(log: seq<Mark>, k: nat, h: Handle)
    requires k <= |log| && PhaseOf(log, h) == Open
    ensures PhaseOf(log[..k], h) == Open
    decreases |log|
  {
    if k == |log| {
      assert log[..k] == log;
    } else {
      var rest := log[..|log| - 1];
      OpenBefore(rest, k, h);
      assert rest[..k] == log[..k];
    }
  }

  lemma TimerBounds(s: State, h: Handle)
    requires Inv(s) && h in s.pool.txns
    ensures var t, ph := s.pool.txns[h], PhaseOf(s.hist.log, h);
            && (t.timer ==> t.status == Status.Pending && !t.ping && ph == Open)
            && (t.status == Status.Pending ==> ph == Open || ph == Warned)
  {
    hide PhaseOf;
    TraceFacts(s, h);
    hide Inv;
  }

  /** Timed out, and so no longer in its open phase. */
  lemma FiredIsWarned(s: State, h: Handle)
    requires Inv(s) && Enabled(s, OnTransTimer(h)) && h in s.pool.txns
    ensures PhaseOf(Do(s, OnTransTimer(h)).hist.log, h) != Open
  {
    hide Inv, PhaseOf, Edit;
    PhaseSnoc(s.hist.log, Queues(TransTimeout(h)), h);
  }

  lemma NewTxnTimer(s: State, a: Step, h: Handle)
    requires Inv(s) && Enabled(s, a) && h !in s.pool.txns && h in Do(s, a).pool.txns
    ensures Do(s, a).pool.txns[h].status != Status.Pending || Do(s, a).pool.txns[h].ping
    ensures !Do(s, a).pool.txns[h].timer
  {
    hide Inv, CoreOk, DrainAll, FreeId, PingPrinted, DoSend, DoResume, ReadOn, ConnFail, Append, Without, DoDelete,
         DoOnConnected, DoOnConnTimer;
    match a
    case Send(g) => SendMoves(s, g, h);
    case Delete(g) => DeleteMoves(s, g);
    case ResumeHandler => ResumeKeeps(s, h);
    case DrainDeferred => DrainKeepsTxns(s, h);
    case OnConnected(id, n) => ConnectedTxns(s, id, n);
    case OnConnTimer => ConnTimerStill(s);
    case OnRead(input) =>
      if input.Some? { OnReadStill(s, input.value); }
    case OnLinkLost(isError) =>
      Entered(s) by { hide Exact; }
      ConnFailStill(Enter(s), isError, {});
    case _ =>
  }

  /** What a timer says, at a transaction its user has not deleted. */
  predicate TimerIs(s: State, h: Handle) {
    h in s.pool.txns && h !in s.pool.delayRm ==>
      (s.pool.txns[h].timer <==> InTime(s.pool.txns[h], PhaseOf(s.hist.log, h)))
  }

  /** A transaction that was there and not deferred before. */
  lemma WasUndeleted(s: State, a: Step, h: Handle)
    requires Inv(s) && Enabled(s, a) && h in Do(s, a).pool.txns && h !in Do(s, a).pool.delayRm
    ensures h !in s.pool.delayRm && a != Delete(h)
  {
    hide Inv, Do, Enabled;
    StepKeepsInv(s, a);
    LiveNotFreed(Do(s, a), h);
    if h in s.pool.delayRm { DeferredStep(s, a, h); }
    if a == Delete(h) { DeletedNow(s, h); }
  }

  lemma TimerStep(s: State, a: Step, h: Handle)
    requires Inv(s) && Enabled(s, a) && TimerIs(s, h)
    ensures TimerIs(Do(s, a), h)
  {
    hide Inv, Do, Enabled, PhaseOf, PoolAdvances;
    var r := Do(s, a);
    if h in r.pool.txns && h !in r.pool.delayRm {
      StepKeepsInv(s, a);
      TimerBounds(r, h);
      if h !in s.pool.txns {
        NewTxnTimer(s, a, h);
      } else if r.pool.txns[h].status == Status.Pending {
        WasUndeleted(s, a, h);
        StepAdvances(s, a);
        StaysSame(s, r, h);
        PendingTimer(s, a, h);
        if PhaseOf(r.hist.log, h) == Open { OpenBefore(r.hist.log, |s.hist.log|, h); }
        if a == OnTransTimer(h) { FiredIsWarned(s, h); }
      }
    }
  }

  lemma StaysSame(s: State, r: State, h: Handle)
    requires Inv(r) && Advances(s, r) && h in s.pool.txns && h in r.pool.txns
    ensures r.pool.txns[h].ping == s.pool.txns[h].ping && s.hist.log == r.hist.log[..|s.hist.log|]
  {
    hide Inv, HistAdvances;
    LiveNotFreed(r, h);
    LogPrefix(s.hist, r.hist);
  }

  lemma LogPrefix(a: History, b: History)
    requires HistAdvances(a, b)
    ensures a.log == b.log[..|a.log|]
  {
  }

  /** In every state of every run: the timeout timer of a transaction that is not
      deleted runs if and only if a timeout was set, it is on the wire, no reply and
      no loss has ended it, and its timeout has not been reported. */
  lemma {:induction false} TimerMeaning(disablePing: bool, states: seq<State>, steps: seq<Step>, i: nat, h: Handle)
    requires Execution(disablePing, states, steps) && i < |states|
    ensures TimerIs(states[i], h)
  {
    hide Inv, Do, Enabled, TimerIs;
    if i == 0 {
      NoTransactions(disablePing, h);
    } else {
      TimerMeaning(disablePing, states, steps, i - 1, h);
      InvAlways(disablePing, states, steps, i - 1);
      assert Enabled(states[i - 1], steps[i - 1]);
      TimerStep(states[i - 1], steps[i - 1], h);
    }
  }

  lemma NoTransactions(disablePing: bool, h: Handle)
    ensures TimerIs(Init(disablePing), h)
  {
  }

  // ----- timers of freed transactions -----

  /** Deleted, not yet freed, and its timeout timer still runs. */
  predicate Ticking(p: Pool, h: Handle) {
    h in Timed(p.txns, p.delayRm)
  }

  /** The connection object is destroyed by this step. */
  predicate TearsDown(s: State, a: Step) {
    (a == Destroy && !s.ctl.inUse) || (a == Finish && s.ctl.destroy)
  }

  lemma HandlerLeaves(s: State, a: Step)
    requires Inv(s) && Enabled(s, a) && EntersHandler(a)
    ensures s.pool.delayRm == [] && Do(s, a).pool.delayRm == [] && Do(s, a).pool.dangling == s.pool.dangling
  {
    hide Inv, CoreOk, ReadOn, Append, ConnFail, FreeId, PingPrinted, Without, DoOnConnected;
    EntersFromQuiet(s, a);
    QuietDeferred(s);
    match a
    case OnConnected(id, n) => ConnectedDeferred(s, id, n);
    case OnRead(input) =>
      if input.Some? { OnReadQuiet(s, input.value); }
    case OnLinkLost(isError) =>
      Entered(s) by { hide Exact; }
      ConnFailQuiet(Enter(s), isError, {});
    case _ =>
  }

  lemma DrainHeadTimed(p: Pool)
    requires p.delayRm != [] && p.delayRm[0] in p.txns && NoDup(p.delayRm)
    ensures var q := DrainHead(p);
            q.dangling + Timed(q.txns, q.delayRm) == p.dangling + Timed(p.txns, p.delayRm)
  {
    var h, q := p.delayRm[0], DrainHead(p);
    HeadNotInTail(p.delayRm);
    assert q.txns == p.txns - {h} && q.delayRm == p.delayRm[1..] by { hide Without, NoDup; }
    assert q.dangling == if p.txns[h].timer then p.dangling + {h} else p.dangling by { hide Without, NoDup; }
    hide DrainHead, NoDup;
    assert forall g :: g in p.delayRm <==> g == h || g in q.delayRm;
  }

  lemma {:induction false} DrainTimed(s: State)
    requires Draining(s)
    ensures DrainAll(s).pool.dangling == s.pool.dangling + Timed(s.pool.txns, s.pool.delayRm)
    decreases |s.pool.delayRm|
  {
    hide Draining, DeleteNow, DrainHead, NoDup;
    if s.pool.delayRm != [] {
      hide Timed;
      DrainOne(s);
      DrainingNoDup(s);
      DrainHeadTimed(s.pool);
      DrainTimed(DeleteNow(s, DrainHead(s.pool)));
      DeletePool(s, DrainHead(s.pool));
    }
  }

  lemma DeletePool(s: State, p: Pool)
    ensures DeleteNow(s, p).pool == p
  {
  }

  lemma DrainingNoDup(s: State)
    requires Draining(s)
    ensures NoDup(s.pool.delayRm)
  {
    hide CoreOk, Coupled, PingOk, FirstOk;
    QueueFacts(s, Parked(s.pool));
  }

  /** Which step frees which transactions with their timers running: the deferred
      drain those deleted with one, and destroying the connection every one. */
  lemma DanglingStep(s: State, a: Step)
    requires Inv(s) && Enabled(s, a)
    ensures Do(s, a).pool.dangling == s.pool.dangling
            + (if a == DrainDeferred then Timed(s.pool.txns, s.pool.delayRm)
               else if TearsDown(s, a) then Timed(s.pool.txns, AllQueued(s.pool)) else {})
  {
    hide Inv, CoreOk, DrainAll, Erase, FreeId, PingPrinted, DoSend, DoDelete, DoResume, DoOnConnected, ReadOn,
         ConnFail, Append, Timed;
    if EntersHandler(a) {
      HandlerLeaves(s, a);
    } else {
      match a
      case Send(g) => SendMoves(s, g, g);
      case Delete(g) => DeleteMoves(s, g);
      case ResumeHandler => ResumePrints(s, 0);
      case DrainDeferred =>
        DrainingIn(s);
        DrainTimed(s);
      case _ =>
    }
  }

  // ----- which deletion leaves a timer behind -----

  /** A deletion of `h` here leaves its timer behind: it is a ready transaction with
      a timeout, the handler has dropped the lock to delete the ping and will go on
      to send, and what it has yet to read neither answers the transaction nor is
      malformed. */
  ghost predicate LeavesTimer(s: State, h: Handle) {
    && Window(s.ctl.pc) && h in s.pool.ready && h in s.pool.txns && s.pool.txns[h].timeout != 0
    && (s.ctl.pc.k == FromRead ==>
          !Verdicts.Breaks(s.link.inbuf) && !Verdicts.Brings(s.link.inbuf, s.pool.txns[h].id))
  }

  ghost predicate TimerLeft(s: State, h: Handle) {
    (h in s.pool.delayRm && LeavesTimer(s, h)) || Ticking(s.pool, h)
  }

  /** Transaction `h` is the one indexed under its id. */
  predicate OwnsId(p: Pool, h: Handle) {
    && h in p.txns && p.txns[h].id in p.idMap && p.idMap[p.txns[h].id] == h
    && forall id :: id in p.idMap && p.idMap[id] == h ==> id == p.txns[h].id
  }

  lemma DispatchOne(s: State, m: Framing.Message, h: Handle)
    requires OwnsId(s.pool, h)
    ensures var r := Dispatch(s, m);
            && OwnsId(r.pool, h) && SameTxn(r.pool.txns[h], s.pool.txns[h])
            && (r.pool.txns[h].status == Status.Pending <==> s.pool.txns[h].status == Status.Pending && m.id != s.pool.txns[h].id)
  {
    hide BuildResponse, Without;
  }

  /** A pending transaction is still pending after these frames exactly when none
      of them has its id. */
  lemma {:induction false} DispatchedPending(s: State, ms: seq<Framing.Message>, h: Handle)
    requires OwnsId(s.pool, h)
    ensures h in DispatchAll(s, ms).pool.txns && SameTxn(DispatchAll(s, ms).pool.txns[h], s.pool.txns[h])
    ensures DispatchAll(s, ms).pool.txns[h].status == Status.Pending
            <==> s.pool.txns[h].status == Status.Pending && !Verdicts.HasId(ms, s.pool.txns[h].id)
    decreases |ms|
  {
    hide Dispatch, OwnsId;
    assert h in s.pool.txns by { OwnerLives(s.pool, h); }
    if ms != [] {
      var id := s.pool.txns[h].id;
      DispatchOne(s, ms[0], h);
      DispatchedPending(Dispatch(s, ms[0]), ms[1..], h);
      assert ms == [ms[0]] + ms[1..];
      Verdicts.HasIdCons(ms[0], ms[1..], id);
    }
  }

  lemma OwnerLives(p: Pool, h: Handle)
    requires OwnsId(p, h)
    ensures h in p.txns
  {
  }

  lemma OwnerFacts(s: State, h: Handle, away: set<Handle>)
    requires CoreOk(s, away) && h in s.pool.txns
    ensures OwnsId(s.pool, h)
    ensures s.pool.txns[h].status == Status.Pending && !s.pool.txns[h].ping ==> h in s.pool.pending
  {
    hide Accounted, DeferredOk, TxnsOk, NoDup, PrintsOk, InSendOrder, WireOk, PastOk, InputOk, TraceOk, BatchOk, RepliesOk;
  }

  lemma LostNotPending(s: State, h: Handle, away: set<Handle>)
    requires CoreOk(s, away) && h in s.pool.txns && !s.pool.txns[h].ping
    ensures h in ConnFail(s, true).pool.txns && ConnFail(s, true).pool.txns[h].status != Status.Pending
  {
    OwnerFacts(s, h, away);
    hide CoreOk, ConnFail, LossReport, Marks, REFUSAL;
    ConnFailIs(s, true, away);
  }

  /** What reading on leaves pending. */
  lemma ReadOnPending(t: State, h: Handle, away: set<Handle>)
    requires CoreOk(t, away) && t.link.pingTxn == None && h in t.pool.txns && !t.pool.txns[h].ping
    ensures var sp := Framing.SplitAll(t.link.inbuf);
            && h in ReadOn(t).pool.txns
            && (ReadOn(t).pool.txns[h].status == Status.Pending
                <==> t.pool.txns[h].status == Status.Pending && !sp.bad && !Verdicts.HasId(sp.msgs, t.pool.txns[h].id))
  {
    hide CoreOk, ReadLoop, ConnFail, DispatchAll, Framing.SplitAll, Leftover, Verdicts.HasId, OwnsId;
    var ms := Framing.SplitAll(t.link.inbuf).msgs;
    ReadLoopIsFold(t);
    ReadLoopStill(t);
    CoreReadLoop(t, away);
    OwnerFacts(t, h, away);
    DispatchedPending(t, ms, h);
    var (r, end) := ReadLoop(t);
    var u := if r.pool.pending == [] then ResetTimer(r) else r;
    CoreTimer(r, u, away);
    LostNotPending(u, h, away);
  }

  /** Inside the window no timer runs and no payment is pending. */
  lemma WindowStill(s: State, h: Handle)
    requires Inv(s) && Cleaning(s.ctl.pc) && h in s.pool.txns
    ensures !s.pool.txns[h].timer && (s.pool.txns[h].status == Status.Pending ==> s.pool.txns[h].ping)
  {
    WindowPending(s);
    InvParts(s);
    hide Inv;
    OwnerFacts(s, h, Away(s)) by { hide CoreOk, OwnsId; }
    hide CoreOk, OwnsId;
  }

  lemma WindowPending(s: State)
    requires Inv(s) && Cleaning(s.ctl.pc)
    ensures s.pool.pending == []
  {
    hide CoreOk, DeliveredOk, FirstOk, LogMatches, CtlOk, PingIs, NoPings;
  }

  /** What going on after the ping leaves pending. */
  lemma ResumePending(s: State, h: Handle)
    requires Inv(s) && s.ctl.pc.Cleaned? && h in s.pool.ready
    ensures h in s.pool.txns && h in DoResume(s).pool.txns
    ensures DoResume(s).pool.txns[h].status == Status.Pending <==>
              Window(s.ctl.pc) && (s.ctl.pc.k == FromRead ==>
                !Verdicts.Breaks(s.link.inbuf) && !Verdicts.Brings(s.link.inbuf, s.pool.txns[h].id))
  {
    Verdicts.StreamVerdict(s.link.inbuf);
    Verdicts.StreamBrings(s.link.inbuf, s.pool.txns[h].id) by { InvParts(s); }
    hide Inv, CoreOk, OpenUp, ReadOn, ConnFail, Framing.SplitAll, Verdicts.HasId, Verdicts.Breaks, Verdicts.Brings, WasPrinted;
    InvParts(s);
    match s.ctl.pc.k
    case FromConnected => OpenUpPrints(s, h);
    case FromRead =>
      OpenUpPrints(s, h);
      OpenUpInbuf(s);
      OpenUpInv(s) by { hide Exact; }
      var t := Goto(OpenUp(s), Deliver);
      InvCore(t);
      CoreTimer(t, OpenUp(s), Away(t));
      ReadOnPending(OpenUp(s), h, Away(t));
    case FromTimeout =>
      InvCore(s);
      var t := s.(link := s.link.(pingTxn := None));
      CoreTimer(s, t, Away(s));
      LostNotPending(t, h, Away(s));
  }

  /** The one step that starts the timer of a deleted transaction. */
  lemma ResumeTicks(s: State, h: Handle)
    requires Inv(s) && s.ctl.pc.Cleaned? && h in s.pool.delayRm
    ensures Ticking(DoResume(s).pool, h) <==> LeavesTimer(s, h)
  {
    hide Inv, CoreOk, DoResume, Verdicts.Breaks, Verdicts.Brings, WasPrinted, TimerKept;
    InvParts(s);
    ResumePrints(s, h);
    ResumeKeeps(s, h);
    StepKeepsInv(s, ResumeHandler);
    var r := DoResume(s);
    InvParts(r);
    WindowStill(s, h);
    if h in s.pool.ready {
      ResumePending(s, h);
      if r.pool.txns[h].status == Status.Pending { KeptStarts(s.pool.txns[h], r.pool.txns[h]); }
    }
  }

  lemma KeptStarts(t: Txn, u: Txn)
    requires TimerKept(t, u, false) && t.status == Status.Ready
    ensures u.timer <==> t.timeout != 0
  {
  }

  /** Any other step: only a deletion changes what will be left. */
  lemma LeftOtherwise(s: State, a: Step, h: Handle)
    requires Inv(s) && Enabled(s, a) && !EntersHandler(a) && !TearsDown(s, a)
    requires a != ResumeHandler && a != DrainDeferred
    ensures TimerLeft(Do(s, a), h) <==> TimerLeft(s, h) || (a == Delete(h) && LeavesTimer(s, h))
  {
    hide Inv, CoreOk, Do, Enabled, TimerLeft, LeavesTimer;
    InvParts(s);
    if a.Send? {
      LeftBySend(s, a.h, h);
    } else if a.Delete? {
      LeftByDelete(s, a.h, h);
    } else if a == DeletePing {
      LeftByDeletePing(s, h);
    } else if a.New? || a.SetParam? || a.SetTimeout? {
      EditLeaves(s, a, h);
    } else {
      OthersKeepPool(s, a);
      LeavesSame(s, Do(s, a), h);
    }
  }

  lemma EditLeaves(s: State, a: Step, h: Handle)
    requires Inv(s) && Enabled(s, a) && (a.New? || a.SetParam? || a.SetTimeout?)
    ensures TimerLeft(Do(s, a), h) <==> TimerLeft(s, h)
  {
    hide Inv, CoreOk, FreeId, KeyValue.SetPair, TimerLeft, LeavesTimer;
    InvParts(s);
    LeavesSame(s, Do(s, a), h);
  }

  lemma OthersKeepPool(s: State, a: Step)
    requires Inv(s) && Enabled(s, a) && !EntersHandler(a) && !TearsDown(s, a)
    requires !(a.New? || a.SetParam? || a.SetTimeout? || a.Send? || a.Delete?)
    requires a != DeletePing && a != ResumeHandler && a != DrainDeferred
    ensures Do(s, a).pool == s.pool && Do(s, a).link.inbuf == s.link.inbuf
    ensures Do(s, a).ctl.pc == s.ctl.pc || (!Window(s.ctl.pc) && !Window(Do(s, a).ctl.pc))
  {
    hide Inv, FreeAll;
  }

  lemma LeavesSame(s: State, r: State, h: Handle)
    requires r.pool.delayRm == s.pool.delayRm && r.pool.ready == s.pool.ready && r.link.inbuf == s.link.inbuf
    requires h in s.pool.delayRm ==> h in s.pool.txns && h in r.pool.txns && r.pool.txns[h] == s.pool.txns[h]
    requires r.ctl.pc == s.ctl.pc || (!Window(s.ctl.pc) && !Window(r.ctl.pc))
    ensures TimerLeft(r, h) <==> TimerLeft(s, h)
  {
    hide Verdicts.Breaks, Verdicts.Brings;
  }

  lemma LeftByDeletePing(s: State, h: Handle)
    requires Inv(s) && Enabled(s, DeletePing)
    ensures TimerLeft(Do(s, DeletePing), h) <==> TimerLeft(s, h)
  {
    hide Inv, CoreOk, Verdicts.Breaks, Verdicts.Brings;
    InvParts(s);
    PingPointer(s);
    PingNotReady(s);
  }

  lemma LeftBySend(s: State, g: Handle, h: Handle)
    requires Inv(s) && Enabled(s, Step.Send(g))
    ensures TimerLeft(Do(s, Step.Send(g)), h) <==> TimerLeft(s, h)
  {
    hide Inv, CoreOk, Verdicts.Breaks, Verdicts.Brings, DoSend;
    InvParts(s);
    SendMoves(s, g, h);
    SendInbuf(s, g);
    if h in s.pool.delayRm && Cleaning(s.ctl.pc) {
      WindowFacts(s);
      SendElsewhere(s, g, h);
    }
  }

  lemma SendElsewhere(s: State, g: Handle, h: Handle)
    requires s.link.status != Connected && g in s.pool.txns && h in s.pool.txns && h != g
    ensures h in DoSend(s, g).pool.txns && DoSend(s, g).pool.txns[h] == s.pool.txns[h]
  {
    hide Without, PromoteAll;
  }

  lemma LeftByDelete(s: State, g: Handle, h: Handle)
    requires Inv(s) && Enabled(s, Delete(g))
    ensures TimerLeft(Do(s, Delete(g)), h) <==> TimerLeft(s, h) || (g == h && LeavesTimer(s, h))
  {
    hide Inv, Verdicts.Breaks, Verdicts.Brings, DoDelete;
    DeleteMoves(s, g);
    DeleteInbuf(s, g);
    IdleDeferred(s);
    if Cleaning(s.ctl.pc) { WindowFacts(s); }
  }

  lemma DeleteInbuf(s: State, g: Handle)
    requires g in s.pool.txns
    ensures DoDelete(s, g).link.inbuf == s.link.inbuf
  {
  }

  lemma IdleDeferred(s: State)
    requires Inv(s) && s.ctl.pc != Gone
    ensures !s.ctl.inUse ==> s.pool.delayRm == []
  {
    hide CoreOk, DeliveredOk, Coupled, PingOk, FirstOk, LogMatches;
  }

  /** Here a timer is left behind, now or once the deferred list is drained: by a
      deletion, or by destroying the connection under a payment sent in time. */
  ghost predicate Abandons(s: State, a: Step, h: Handle) {
    || (a == Delete(h) && LeavesTimer(s, h))
    || (TearsDown(s, a) && h in s.pool.txns && InTime(s.pool.txns[h], PhaseOf(s.hist.log, h)))
  }

  lemma TornDown(s: State, a: Step, h: Handle)
    requires Inv(s) && Enabled(s, a) && TearsDown(s, a)
    ensures s.pool.delayRm == [] && !TimerLeft(s, h) && !TimerLeft(Do(s, a), h)
    ensures h in Timed(s.pool.txns, AllQueued(s.pool)) <==> h in s.pool.txns && s.pool.txns[h].timer
  {
    hide Inv, CoreOk, OwnsId, FreeAll, Away, Enabled, Do, TimerLeft;
    NotGone(s, a);
    DeferredAtEnd(s, a);
    InvParts(s);
    if h in s.pool.txns { OwnerFacts(s, h, Away(s)); }
    NoneLeft(s, h);
    NoneLeft(Do(s, a), h) by { TornDeferred(s, a); }
  }

  lemma NoneLeft(s: State, h: Handle)
    requires s.pool.delayRm == []
    ensures !TimerLeft(s, h)
  {
  }

  lemma TornDeferred(s: State, a: Step)
    requires Enabled(s, a) && TearsDown(s, a)
    ensures Do(s, a).pool.delayRm == s.pool.delayRm
  {
  }

  lemma DeferredAtEnd(s: State, a: Step)
    requires Inv(s) && s.ctl.pc != Gone && Enabled(s, a) && TearsDown(s, a)
    ensures s.pool.delayRm == []
  {
    hide CoreOk, DeliveredOk, Coupled, PingOk, FirstOk, LogMatches;
  }

  lemma LeftStep(s: State, a: Step, h: Handle)
    requires Inv(s) && Enabled(s, a) && TimerIs(s, h)
    ensures TimerLeft(Do(s, a), h) || h in Do(s, a).pool.dangling <==>
              TimerLeft(s, h) || h in s.pool.dangling || Abandons(s, a, h)
  {
    hide Inv, Do, Enabled, LeavesTimer, TearsDown, AllQueued, InTime, PhaseOf;
    DanglingStep(s, a);
    if EntersHandler(a) {
      HandlerLeaves(s, a);
      NotTearing(s, a);
    } else if a == ResumeHandler {
      LeftByResume(s, h);
    } else if a == DrainDeferred {
      LeftByDrain(s, h);
    } else if TearsDown(s, a) {
      TornDown(s, a, h);
      NoDelete(s, a, h);
    } else {
      LeftOtherwise(s, a, h);
    }
  }

  lemma NotTearing(s: State, a: Step)
    ensures EntersHandler(a) || a == ResumeHandler || a == DrainDeferred ==> !TearsDown(s, a)
  {
  }

  lemma NoDelete(s: State, a: Step, h: Handle)
    requires TearsDown(s, a)
    ensures a != Delete(h)
  {
  }

  lemma LeftByResume(s: State, h: Handle)
    requires Inv(s) && Enabled(s, ResumeHandler)
    ensures TimerLeft(Do(s, ResumeHandler), h) <==> TimerLeft(s, h)
    ensures !TearsDown(s, ResumeHandler)
  {
    hide Inv, DoResume, Verdicts.Breaks, Verdicts.Brings;
    ResumePrints(s, h);
    ResumeLeaves(s);
    if h in s.pool.delayRm {
      InvParts(s) by { hide CoreOk; }
      WindowStill(s, h);
      ResumeTicks(s, h);
    }
  }

  lemma LeftByDrain(s: State, h: Handle)
    requires Inv(s) && Enabled(s, DrainDeferred)
    ensures !TimerLeft(Do(s, DrainDeferred), h) && (TimerLeft(s, h) <==> h in Timed(s.pool.txns, s.pool.delayRm))
    ensures !TearsDown(s, DrainDeferred)
  {
    hide Inv, DrainAll, Verdicts.Breaks, Verdicts.Brings;
    DrainingIn(s);
    DrainAllOk(s);
  }

  // ----- over runs -----

  /** Before state `n` a step left the timer of `h` behind. */
  ghost predicate Abandoned(states: seq<State>, steps: seq<Step>, n: nat, h: Handle)
    requires n <= |steps| < |states|
  {
    exists i :: 0 <= i < n && Abandons(states[i], steps[i], h)
  }

  lemma {:induction false} LeftAlways(disablePing: bool, states: seq<State>, steps: seq<Step>, n: nat, h: Handle)
    requires Execution(disablePing, states, steps) && n < |states|
    ensures TimerLeft(states[n], h) || h in states[n].pool.dangling <==> Abandoned(states, steps, n, h)
  {
    hide Inv, Do, Enabled, TimerLeft, TimerIs, Abandons;
    if n == 0 {
      NothingLeft(disablePing, h);
    } else {
      LeftAlways(disablePing, states, steps, n - 1, h);
      InvAlways(disablePing, states, steps, n - 1);
      TimerMeaning(disablePing, states, steps, n - 1, h);
      assert Enabled(states[n - 1], steps[n - 1]);
      LeftStep(states[n - 1], steps[n - 1], h);
    }
  }

  lemma NothingLeft(disablePing: bool, h: Handle)
    ensures !TimerLeft(Init(disablePing), h) && h !in Init(disablePing).pool.dangling
  {
  }

  lemma DanglingFreedStep(s: State, a: Step, h: Handle)
    requires Inv(s) && Enabled(s, a) && (h in s.pool.dangling ==> h in s.pool.freed) && h in Do(s, a).pool.dangling
    ensures h in Do(s, a).pool.freed
  {
    hide Inv, Do, Enabled, HistAdvances, Later, TearsDown, AllQueued;
    DanglingStep(s, a);
    StepAdvances(s, a);
    if h !in s.pool.dangling {
      if a == DrainDeferred { DrainFrees(s, h); } else { TeardownFrees(s, a, h); }
    }
  }

  lemma DrainFrees(s: State, h: Handle)
    requires Inv(s) && Enabled(s, DrainDeferred) && h in s.pool.delayRm
    ensures h in Do(s, DrainDeferred).pool.freed
  {
    hide Inv, DrainAll;
    DrainingIn(s);
    DrainAllOk(s);
  }

  lemma TeardownFrees(s: State, a: Step, h: Handle)
    requires Enabled(s, a) && TearsDown(s, a) && h in AllQueued(s.pool)
    ensures h in Do(s, a).pool.freed
  {
  }

  lemma {:induction false} DanglingFreed(disablePing: bool, states: seq<State>, steps: seq<Step>, n: nat, h: Handle)
    requires Execution(disablePing, states, steps) && n < |states| && h in states[n].pool.dangling
    ensures h in states[n].pool.freed
  {
    hide Inv, Do, Enabled;
    if n > 0 {
      if h in states[n - 1].pool.dangling { DanglingFreed(disablePing, states, steps, n - 1, h); }
      InvAlways(disablePing, states, steps, n - 1);
      assert Enabled(states[n - 1], steps[n - 1]);
      DanglingFreedStep(states[n - 1], steps[n - 1], h);
    }
  }

  lemma LeftIsLive(s: State, h: Handle)
    requires Inv(s) && TimerLeft(s, h)
    ensures h !in s.pool.freed
  {
    LiveNotFreed(s, h);
    hide Inv, LeavesTimer;
  }

  /** In every state of every run: a transaction has been freed with its timeout timer
      running if and only if it has been freed and, before, either its user deleted it
      where that leaves the timer behind, or the connection was destroyed while it was
      on the wire with a timeout, unfinished, and not reported late. */
  lemma TimerOutlivesIff(disablePing: bool, states: seq<State>, steps: seq<Step>, n: nat, h: Handle)
    requires Execution(disablePing, states, steps) && n < |states|
    ensures h in states[n].pool.dangling <==> h in states[n].pool.freed && Abandoned(states, steps, n, h)
  {
    hide Execution, Inv, TimerLeft, Abandoned;
    LeftAlways(disablePing, states, steps, n, h);
    InvAlways(disablePing, states, steps, n);
    if h in states[n].pool.dangling { DanglingFreed(disablePing, states, steps, n, h); }
    if TimerLeft(states[n], h) { LeftIsLive(states[n], h); }
  }

  /** A step that leaves the timer of a transaction behind is its deletion, once it
      is deleted. */
  lemma OnlyItsDeletion(disablePing: bool, states: seq<State>, steps: seq<Step>, i: nat, k: nat, h: Handle)
    requires Execution(disablePing, states, steps) && i < |steps| && k < |steps|
    requires steps[i] == Delete(h) && Abandons(states[k], steps[k], h)
    ensures k == i
  {
    hide Inv, Do, Enabled, LeavesTimer, Deleted, InTime, TearsDown;
    InvAlways(disablePing, states, steps, i);
    InvAlways(disablePing, states, steps, k);
    assert Enabled(states[i], steps[i]) && Enabled(states[k], steps[k]);
    if i < k {
      DeletedNow(states[i], h);
      StaysDeleted(disablePing, states, steps, i + 1, k, h);
      DeletedOnce(states[k], steps[k], h);
      DeletedIsDeferred(states[k], steps[k], h);
    } else if k < i {
      if steps[k] == Delete(h) {
        DeletedNow(states[k], h);
        StaysDeleted(disablePing, states, steps, k + 1, i, h);
        DeletedOnce(states[i], steps[i], h);
      } else {
        InvAlways(disablePing, states, steps, k + 1);
        assert Enabled(states[k + 1], steps[k + 1]);
        NotGone(states[k + 1], steps[k + 1]);
        TornIsGone(states[k], steps[k]);
      }
    }
  }

  lemma TornIsGone(s: State, a: Step)
    requires Enabled(s, a) && TearsDown(s, a)
    ensures Do(s, a).ctl.pc == Gone
  {
  }

  lemma DeletedIsDeferred(s: State, a: Step, h: Handle)
    requires Inv(s) && Enabled(s, a) && Deleted(s, h) && TearsDown(s, a)
    ensures h !in s.pool.txns
  {
    LiveNotFreed(s, h);
    NotGone(s, a);
    DeferredAtEnd(s, a);
    hide Inv;
  }

  /** What becomes of the timer of a transaction is settled where it is deleted: once
      it has been freed, its timer is running if and only if `LeavesTimer` held there. */
  lemma DeletionLeavesTimerIff(disablePing: bool, states: seq<State>, steps: seq<Step>, i: nat, n: nat, h: Handle)
    requires Execution(disablePing, states, steps) && i < n < |states|
    requires steps[i] == Delete(h) && h in states[n].pool.freed
    ensures h in states[n].pool.dangling <==> LeavesTimer(states[i], h)
  {
    assert n <= |steps|;
    hide Execution, LeavesTimer, InTime, TearsDown;
    TimerOutlivesIff(disablePing, states, steps, n, h);
    if LeavesTimer(states[i], h) {
      assert Abandons(states[i], steps[i], h);
    }
    if k :| 0 <= k < n && Abandons(states[k], steps[k], h) {
      OnlyItsDeletion(disablePing, states, steps, i, k, h);
      NoDeleteTears(states[i], h);
    }
  }

  lemma NoDeleteTears(s: State, h: Handle)
    ensures !TearsDown(s, Delete(h))
  {
  }
}
