/** What each step puts on the wire, and what that means for a transaction that
    another thread deletes while the event handler, having dropped the connection
    lock, is deleting the ping. */
module PingWindow {
  import opened Bytes
  import opened Pool
  import opened Engine
  import opened Core
  import opened CoreMoves
  import opened Effects
  import opened Invariant
  import opened Steps
  import opened HandlerSteps
  import opened PingSteps
  import opened Progress
  import opened Runs
  import opened Shutdown
  import KeyValue
  import Framing

  // ----- who is printed when -----

  /** Does this step print transaction `h`? */
  predicate Prints(s: State, a: Step, h: Handle) {
    match a
    case OnConnected(_, _) => !s.link.disablePing && h == s.pool.next
    case Send(g) => h == g && g in s.pool.txns && Sendable(s.pool.txns[g]) && s.link.status == Connected
    case ResumeHandler => s.ctl.pc.Cleaned? && s.ctl.pc.k != FromTimeout && h in s.pool.ready
    case _ => false
  }

  lemma {:induction false} PrintsOfHas(s: State, q: seq<Handle>, h: Handle)
    requires forall g :: g in q ==> g in s.pool.txns
    ensures WasPrinted(PrintsOf(s, q), h) <==> h in q
  {
    hide KeyValue.Payload;
    if q != [] {
      PrintsOfHas(s, q[1..], h);
      WasPrintedCons(PrintOf(s, q[0]), PrintsOf(s, q[1..]), h);
    }
  }

  lemma WasPrintedCons(pr: Print, ps: seq<Print>, h: Handle)
    ensures WasPrinted([pr] + ps, h) <==> pr.trans == h || WasPrinted(ps, h)
  {
    WasPrintedConcat([pr], ps, h);
    assert pr.trans == h ==> [pr][0].trans == h;
  }

  lemma WasPrintedConcat(a: seq<Print>, b: seq<Print>, h: Handle)
    ensures WasPrinted(a + b, h) <==> WasPrinted(a, h) || WasPrinted(b, h)
  {
    var c := a + b;
    if WasPrinted(a, h) {
      var i :| 0 <= i < |a| && a[i].trans == h;
      assert c[i].trans == h;
    }
    if WasPrinted(b, h) {
      var i :| 0 <= i < |b| && b[i].trans == h;
      assert c[|a| + i].trans == h;
    }
  }

  /** The send loop prints the ready transactions. */
  lemma PromotedPrints(s: State, away: set<Handle>, h: Handle)
    requires CoreOk(s, away)
    ensures WasPrinted(PromoteAll(s).hist.printed, h) <==> WasPrinted(s.hist.printed, h) || h in s.pool.ready
    ensures PromoteAll(s).pool.delayRm == s.pool.delayRm && PromoteAll(s).pool.dangling == s.pool.dangling
    ensures PromoteAll(s).pool.txns == SentAll(s.pool.txns, s.pool.ready)
  {
    hide CoreOk, PrintsOf, Stream, WasPrinted, SentAll;
    PromoteAllIs(s, away);
    QueueFacts(s, away);
    PrintsOfHas(s, s.pool.ready, h);
    WasPrintedConcat(s.hist.printed, PrintsOf(s, s.pool.ready), h);
  }

  lemma SendPrints(s: State, g: Handle, h: Handle)
    requires Inv(s) && Enabled(s, Step.Send(g))
    ensures WasPrinted(Do(s, Step.Send(g)).hist.printed, h) <==> WasPrinted(s.hist.printed, h) || Prints(s, Step.Send(g), h)
  {
    hide Inv, CoreOk, PromoteAll, WasPrinted, Without;
    InvCore(s);
    if Sendable(s.pool.txns[g]) {
      CoreMovesReady(s, g);
      if s.link.status == Connected {
        PromotedPrints(MakeReady(s, g), Away(s), h);
        ConnectedReady(s);
        NewNotReady(s.pool, g, Queued(s.pool.txns[g], s.hist.sends));
      }
    }
  }

  lemma ConnectedReady(s: State)
    requires Inv(s) && s.ctl.pc != Gone && s.link.status == Connected
    ensures s.pool.ready == []
  {
    hide CoreOk, DeliveredOk, PingOk, FirstOk, LogMatches, CtlOk;
  }

  lemma NewNotReady(p: Pool, g: Handle, t: Txn)
    requires g in p.txns && p.txns[g].status == Status.New && t.status == Status.Ready
    ensures Move(p, g, t).ready == p.ready + [g]
  {
    hide Without;
  }

  lemma OpenUpPrints(s: State, h: Handle)
    requires Inv(s) && s.ctl.pc.Cleaned? && s.ctl.pc.k != FromTimeout
    ensures WasPrinted(OpenUp(s).hist.printed, h) <==> WasPrinted(s.hist.printed, h) || h in s.pool.ready
    ensures OpenUp(s).pool.delayRm == s.pool.delayRm && OpenUp(s).pool.dangling == s.pool.dangling
    ensures OpenUp(s).pool.txns == SentAll(s.pool.txns, s.pool.ready)
  {
    hide Inv, CoreOk, PromoteAll, WasPrinted, SentAll;
    InvCore(s);
    var c := s.(link := s.link.(pingTxn := None, status := Connected));
    CoreTimer(s, c, Away(s));
    CoreEmit(c, ConnConnected, Away(s));
    PromotedPrints(Emit(c, ConnConnected), Away(s), h);
  }

  /** What reading leaves alone, whatever it reads. */
  predicate ReadQuiet(s: State, r: State) {
    r.hist.printed == s.hist.printed && r.pool.delayRm == s.pool.delayRm && r.pool.dangling == s.pool.dangling
    && (forall h :: h in r.pool.txns && r.pool.txns[h].timer ==> h in s.pool.txns && s.pool.txns[h].timer)
  }

  lemma AnswerQuiet(s: State, h: Handle, m: Framing.Message)
    requires h in s.pool.txns
    ensures ReadQuiet(s, Answer(s, h, m)) && ReadQuiet(s, Report(Answer(s, h, m), h))
  {
    hide BuildResponse, Without;
  }

  lemma {:induction false} ReadLoopQuiet(s: State)
    ensures ReadQuiet(s, ReadLoop(s).0)
    decreases |s.link.inbuf|
  {
    hide Framing.NextFrame, BuildResponse, Report, Answer, ReadLoop;
    ReadLoopFlat(s);
    var n := Framing.NextFrame(s.link.inbuf);
    if n.Got? {
      var s1 := Consume(s, n.msg, n.rest);
      match PendingHolder(s.pool, n.msg.id)
      case None => ReadLoopQuiet(s1);
      case Some(h) =>
        AnswerQuiet(s1, h, n.msg);
        AnswerReportFrame(s1, h, n.msg);
        if s.link.pingTxn != Some(h) {
          ReadLoopQuiet(Report(Answer(s1, h, n.msg), h));
        }
    }
  }

  lemma ConnFailQuiet(s: State, isError: bool, away: set<Handle>)
    requires CoreOk(s, away)
    ensures ReadQuiet(s, ConnFail(s, isError))
  {
    hide CoreOk, ConnFail, LossReport, Marks, REFUSAL;
    ConnFailIs(s, isError, away);
  }

  lemma ReadOnQuiet(s: State, away: set<Handle>)
    requires CoreOk(s, away)
    requires s.link.pingTxn.Some? && s.link.pingTxn.value in s.pool.txns ==> s.pool.txns[s.link.pingTxn.value].ping
    ensures ReadQuiet(s, ReadOn(s))
  {
    hide CoreOk, ReadLoop, ConnFail, Without;
    ReadLoopQuiet(s);
    CoreReadLoop(s, away);
    var (r, end) := ReadLoop(s);
    var u := if r.pool.pending == [] then ResetTimer(r) else r;
    CoreTimer(r, u, away);
    if end == Failed {
      ConnFailQuiet(u, true, away);
    }
  }

  lemma OnReadQuiet(s: State, b: seq<byte>)
    requires Inv(s) && s.ctl.pc == Quiet && s.link.io == Up
    ensures ReadQuiet(s, ReadOn(Append(Enter(s), b)))
  {
    hide CoreOk, ReadOn, Append, Alive, DeliveredOk, Exact;
    AppendInv(s, b);
    AppendKeeps(s, b);
    var t := Append(Enter(s), b);
    PingPointer(t);
    ReadOnQuiet(t, {});
  }

  /** What going on after the ping prints, and what it does to the pool. */
  lemma ResumePrints(s: State, h: Handle)
    requires Inv(s) && s.ctl.pc.Cleaned?
    ensures WasPrinted(DoResume(s).hist.printed, h) <==> WasPrinted(s.hist.printed, h) || Prints(s, ResumeHandler, h)
    ensures DoResume(s).pool.delayRm == s.pool.delayRm && DoResume(s).pool.dangling == s.pool.dangling
    ensures h in DoResume(s).pool.txns && DoResume(s).pool.txns[h].timer && h in s.pool.txns && !s.pool.txns[h].timer
            ==> s.ctl.pc.k != FromTimeout && h in s.pool.ready && s.pool.txns[h].timeout != 0
    ensures h in DoResume(s).pool.txns && DoResume(s).pool.txns[h].timer ==> h in s.pool.txns
  {
    hide Inv, CoreOk, OpenUp, ReadOn, ConnFail, WasPrinted;
    match s.ctl.pc.k
    case FromConnected => OpenUpPrints(s, h);
    case FromRead =>
      OpenUpPrints(s, h);
      OpenUpInv(s) by { hide Exact; }
      var t := Goto(OpenUp(s), Deliver);
      InvCore(t);
      CoreTimer(t, OpenUp(s), Away(t));
      ReadOnQuiet(OpenUp(s), Away(t));
    case FromTimeout =>
      InvCore(s);
      var t := s.(link := s.link.(pingTxn := None));
      CoreTimer(s, t, Away(s));
      ConnFailQuiet(t, true, Away(s));
  }

  lemma ConnectedPrints(s: State, id: nat, n: nat, h: Handle)
    requires Inv(s) && Enabled(s, OnConnected(id, n))
    ensures WasPrinted(Do(s, OnConnected(id, n)).hist.printed, h)
            <==> WasPrinted(s.hist.printed, h) || Prints(s, OnConnected(id, n), h)
  {
    hide Inv, WasPrinted, PingPrinted, FreeId;
    if !s.link.disablePing {
      PingParts(s, id);
      WasPrintedSnoc(s.hist.printed, PingPrint(s, id), h);
    }
  }

  /** Exactly which step puts which transaction on the wire: the connected event
      prints a new ping; `send` prints the transaction sent, if connected; going
      on after the ping prints everything ready; nothing else prints anything. */
  lemma WhoIsPrinted(s: State, a: Step, h: Handle)
    requires Inv(s) && Enabled(s, a)
    ensures WasPrinted(Do(s, a).hist.printed, h) <==> WasPrinted(s.hist.printed, h) || Prints(s, a, h)
  {
    hide Inv, CoreOk, ReadOn, Append, ConnFail, DrainAll, Move, Erase, Defer, FreeAll, FreeId, PingPrinted, Add,
         WasPrinted, DoSend, DoResume, DoOnConnected;
    match a
    case Send(g) => SendPrints(s, g, h);
    case OnConnected(id, n) => ConnectedPrints(s, id, n, h);
    case ResumeHandler => ResumePrints(s, h);
    case OnRead(input) =>
      if input.Some? { OnReadQuiet(s, input.value); }
    case OnLinkLost(isError) =>
      Entered(s) by { hide Exact; }
      ConnFailQuiet(Enter(s), isError, {});
    case DrainDeferred => DrainKeepsLink(s);
    case _ =>
  }

  // ----- deleted, and yet sent -----

  /** The handler has dropped the lock to delete the ping and will go on to send. */
  predicate Window(pc: Pc) {
    Cleaning(pc) && pc.k != FromTimeout
  }

  /** A ready transaction deleted inside the window: it is only put on the
      deferred list, stays in the ready queue, and will be sent. */
  predicate Doomed(s: State, h: Handle) {
    Window(s.ctl.pc) && h in s.pool.delayRm && h in s.pool.ready
  }

  /** A transaction its user has deleted. */
  predicate Deleted(s: State, h: Handle) {
    h in s.pool.freed || h in s.pool.delayRm
  }

  /** A deleted transaction is printed only inside the window. */
  lemma DeletedPrints(s: State, a: Step, h: Handle)
    requires Inv(s) && Enabled(s, a) && Deleted(s, h)
    ensures Prints(s, a, h) <==> a == ResumeHandler && s.ctl.pc.Cleaned? && Doomed(s, h)
  {
    hide Inv, FreeId, PingPrinted, Deleted;
    DeletedFacts(s, h);
  }

  lemma DeletedFacts(s: State, h: Handle)
    requires Inv(s) && Deleted(s, h)
    ensures h != s.pool.next && (h in s.pool.txns ==> h in s.pool.delayRm) && (h in s.pool.ready ==> h in s.pool.txns)
  {
    hide Inv;
    InvParts(s) by { hide CoreOk; }
    LiveNotFreed(s, h);
    NextUnused(s, h);
    hide CoreOk;
  }

  lemma NextUnused(s: State, h: Handle)
    requires Inv(s) && Deleted(s, h)
    ensures h != s.pool.next
  {
    hide QueuesOk, Indexed, TxnsOk, PrintsOk, InSendOrder, WireOk, PastOk, InputOk, TraceOk, BatchOk, RepliesOk,
         DeliveredOk, Alive, NoDup;
  }

  lemma DeleteMoves(s: State, g: Handle)
    requires g in s.pool.txns
    ensures var p, q := s.pool, DoDelete(s, g).pool;
            && q.dangling == p.dangling && DoDelete(s, g).ctl == s.ctl
            && if s.ctl.inUse then
                 && q.delayRm == p.delayRm + [g] && q.ready == p.ready && q.freed == p.freed
                 && q.txns == p.txns[g := p.txns[g].(timer := false)]
               else q.delayRm == p.delayRm && q.freed == p.freed + [g] && q.txns == p.txns - {g}
  {
    hide Without;
    assert s.pool.txns[g := s.pool.txns[g].(timer := false)] - {g} == s.pool.txns - {g};
  }

  /** Sending does not touch the deferred list; a transaction that turns ready or
      pending by it is the one sent. */
  lemma SendMoves(s: State, g: Handle, h: Handle)
    requires Inv(s) && Enabled(s, Step.Send(g))
    ensures var r := Do(s, Step.Send(g));
            && r.pool.delayRm == s.pool.delayRm && r.pool.dangling == s.pool.dangling && r.ctl == s.ctl
            && (h != g && s.link.status != Connected ==> (h in r.pool.ready <==> h in s.pool.ready))
            && (h != g ==> (h in r.pool.txns <==> h in s.pool.txns) && (h in s.pool.txns ==> r.pool.txns[h].timer == s.pool.txns[h].timer))
  {
    hide Inv, CoreOk, PromoteAll, Without, WasPrinted;
    InvCore(s);
    if Sendable(s.pool.txns[g]) {
      CoreMovesReady(s, g);
      NewNotReady(s.pool, g, Queued(s.pool.txns[g], s.hist.sends));
      ReadySends(s, g);
      if s.link.status == Connected {
        PromotedPrints(MakeReady(s, g), Away(s), h);
        ConnectedReady(s);
      }
    }
  }

  /** Inside the window the connection is not yet usable. */
  lemma WindowFacts(s: State)
    requires Inv(s) && Cleaning(s.ctl.pc)
    ensures s.link.status == Connecting && s.ctl.inUse
  {
    hide CoreOk, DeliveredOk, PingOk, FirstOk, LogMatches;
  }

  lemma QuietDeferred(s: State)
    requires Inv(s) && s.ctl.pc == Quiet
    ensures s.pool.delayRm == []
  {
    hide CoreOk, DeliveredOk, Coupled, PingOk, FirstOk, LogMatches;
  }

  lemma ReadOnDeferred(s: State, b: seq<byte>, h: Handle)
    requires Inv(s) && s.ctl.pc == Quiet && s.link.io == Up
    ensures !Doomed(ReadOn(Append(Enter(s), b)), h)
  {
    hide Inv, ReadOn, Append;
    QuietDeferred(s);
    OnReadQuiet(s, b);
  }

  /** Losing the connection leaves the window. */
  lemma DoomedByHandler(s: State, a: Step, h: Handle)
    requires Inv(s) && Enabled(s, a) && EntersHandler(a)
    ensures !Doomed(s, h) && !Doomed(Do(s, a), h)
  {
    hide Inv, CoreOk, ReadOn, Append, ConnFail, FreeId, PingPrinted, Add, Without, DoOnConnected;
    EntersFromQuiet(s, a);
    QuietDeferred(s);
    match a
    case OnConnected(id, n) =>
      ConnectedDeferred(s, id, n);
    case OnRead(input) =>
      if input.Some? { ReadOnDeferred(s, input.value, h); }
    case OnLinkLost(isError) =>
      Entered(s) by { hide Exact; }
      ConnFailQuiet(Enter(s), isError, {});
    case _ =>
  }

  lemma ConnectedDeferred(s: State, id: nat, n: nat)
    requires Enabled(s, OnConnected(id, n))
    ensures DoOnConnected(s, id, n).pool.delayRm == s.pool.delayRm && DoOnConnected(s, id, n).pool.dangling == s.pool.dangling
    ensures forall h :: h in DoOnConnected(s, id, n).pool.txns && DoOnConnected(s, id, n).pool.txns[h].timer
              ==> h in s.pool.txns && s.pool.txns[h].timer
  {
    hide PingPrinted, FreeId, Without;
    if !s.link.disablePing {
      PingParts(s, id);
    }
  }

  lemma DoomedByCall(s: State, a: Step, h: Handle)
    requires Inv(s) && Enabled(s, a) && IsCall(a)
    ensures Doomed(Do(s, a), h) <==> Doomed(s, h) || (a == Delete(h) && Window(s.ctl.pc) && h in s.pool.ready)
  {
    hide Inv, CoreOk, Erase, FreeAll, FreeId, DoSend, DoDelete, KeyValue.SetPair;
    match a
    case Send(g) =>
      SendMoves(s, g, h);
      if Cleaning(s.ctl.pc) { WindowFacts(s); }
    case Delete(g) =>
      DeleteMoves(s, g);
      if Cleaning(s.ctl.pc) { WindowFacts(s); }
    case _ =>
  }

  /** A transaction is doomed exactly by being deleted, while ready, inside the
      window, and stays so until the handler goes on. */
  lemma DoomedStep(s: State, a: Step, h: Handle)
    requires Inv(s) && Enabled(s, a) && a != ResumeHandler
    ensures Doomed(Do(s, a), h) <==> Doomed(s, h) || (a == Delete(h) && Window(s.ctl.pc) && h in s.pool.ready)
  {
    hide Inv, CoreOk, DrainAll, FreeAll, FreeId, PingPrinted, DoNew, DoSetParam, DoSetTimeout, DoSend, DoDelete;
    if EntersHandler(a) {
      DoomedByHandler(s, a, h);
      EntersFromQuiet(s, a);
    } else if IsCall(a) {
      DoomedByCall(s, a, h);
    } else {
      match a
      case DeletePing => PingNotReady(s);
      case DrainDeferred => DrainKeepsCtl(s);
      case _ =>
    }
  }

  lemma PingNotReady(s: State)
    requires Inv(s) && s.ctl.pc.Cleanup?
    ensures s.link.pingTxn.Some? && s.link.pingTxn.value in s.pool.txns ==> s.link.pingTxn.value !in s.pool.ready
  {
    hide CoreOk, DeliveredOk, Coupled, FirstOk, LogMatches, CtlOk, Pinging, NoPings;
    InvParts(s);
    assert CoreOk(s, Away(s));
    if s.link.pingTxn.Some? && s.link.pingTxn.value in s.pool.txns {
      PingStatus(s, s.link.pingTxn.value, Away(s));
    }
  }

  lemma PingStatus(s: State, h: Handle, away: set<Handle>)
    requires CoreOk(s, away) && h in s.pool.txns && s.pool.txns[h].ping
    ensures s.pool.txns[h].status != Status.Ready
  {
    hide QueuesOk, Accounted, DeferredOk, Indexed, PrintsOk, InSendOrder, WireOk, PastOk, InputOk, TraceOk, BatchOk,
         RepliesOk;
  }

  // ----- over runs -----

  /** This transaction is not deleted inside the window while ready. */
  predicate Careful(states: seq<State>, steps: seq<Step>, h: Handle) {
    |states| == |steps| + 1
    && forall i :: 0 <= i < |steps| && steps[i] == Delete(h) ==> !(Window(states[i].ctl.pc) && h in states[i].pool.ready)
  }

  lemma {:induction false} NeverDoomed(disablePing: bool, states: seq<State>, steps: seq<Step>, i: nat, h: Handle)
    requires Execution(disablePing, states, steps) && Careful(states, steps, h) && i < |states|
    ensures !Doomed(states[i], h)
  {
    hide Inv, Do, Enabled, Window;
    if i > 0 {
      NeverDoomed(disablePing, states, steps, i - 1, h);
      InvAlways(disablePing, states, steps, i - 1);
      var s, a := states[i - 1], steps[i - 1];
      assert Enabled(s, a);
      if a == ResumeHandler {
        ResumeLeaves(s);
      } else {
        DoomedStep(s, a, h);
      }
    }
  }

  lemma ResumeLeaves(s: State)
    requires Inv(s) && Enabled(s, ResumeHandler)
    ensures !Window(Do(s, ResumeHandler).ctl.pc)
  {
    hide Inv, CoreOk, OpenUp, ReadOn, ConnFail, Exact;
    match s.ctl.pc.k
    case FromRead =>
      OpenUpInv(s);
      ReadOnLeaves(OpenUp(s));
    case _ =>
  }

  lemma ReadOnLeaves(s: State)
    requires Inv(Goto(s, Deliver)) && s.link.pingTxn == None
    ensures ReadOn(s).ctl.pc == Deliver
  {
    hide Inv, ReadLoop, ConnFail;
    ReadNoPing(s);
  }

  lemma {:induction false} ReadNoPing(s: State)
    requires s.link.pingTxn == None
    ensures ReadLoop(s).1 != PingAnswered
    decreases |s.link.inbuf|
  {
    hide Framing.NextFrame, BuildResponse, Report, Answer, ReadLoop;
    ReadLoopFlat(s);
    var n := Framing.NextFrame(s.link.inbuf);
    if n.Got? {
      var s1 := Consume(s, n.msg, n.rest);
      match PendingHolder(s.pool, n.msg.id)
      case None => ReadNoPing(s1);
      case Some(h) =>
        AnswerReportFrame(s1, h, n.msg);
        ReadNoPing(Report(Answer(s1, h, n.msg), h));
    }
  }

  /** A transaction deleted before it was sent is never sent, unless it was deleted
      inside the window while ready. */
  lemma {:induction false} DeletedStaysUnsent(disablePing: bool, states: seq<State>, steps: seq<Step>, i: nat, j: nat, h: Handle)
    requires Execution(disablePing, states, steps) && Careful(states, steps, h) && i <= j < |states|
    requires Deleted(states[i], h) && !WasPrinted(states[i].hist.printed, h)
    ensures !WasPrinted(states[j].hist.printed, h)
    decreases j
  {
    hide Inv, Do, Enabled, WasPrinted, Prints, Deleted, Careful;
    if i < j {
      DeletedStaysUnsent(disablePing, states, steps, i, j - 1, h);
      InvAlways(disablePing, states, steps, j - 1);
      var s, a := states[j - 1], steps[j - 1];
      assert Enabled(s, a);
      StaysDeleted(disablePing, states, steps, i, j - 1, h);
      WhoIsPrinted(s, a, h);
      DeletedPrints(s, a, h);
      NeverDoomed(disablePing, states, steps, j - 1, h);
    }
  }

  lemma {:induction false} StaysDeleted(disablePing: bool, states: seq<State>, steps: seq<Step>, i: nat, j: nat, h: Handle)
    requires Execution(disablePing, states, steps) && i <= j < |states| && Deleted(states[i], h)
    ensures Deleted(states[j], h)
    decreases j
  {
    hide Inv, Do, Enabled, Deleted;
    if i < j {
      StaysDeleted(disablePing, states, steps, i, j - 1, h);
      InvAlways(disablePing, states, steps, j - 1);
      assert Enabled(states[j - 1], steps[j - 1]);
      DeletedStep(states[j - 1], steps[j - 1], h);
    }
  }

  lemma DeletedStep(s: State, a: Step, h: Handle)
    requires Inv(s) && Enabled(s, a) && Deleted(s, h)
    ensures Deleted(Do(s, a), h)
  {
    hide Inv, Do, Enabled, HistAdvances, Later;
    StepAdvances(s, a);
    if h in s.pool.delayRm {
      DeferredStep(s, a, h);
    }
  }

  /** A deferred transaction stays deferred until it is freed. */
  lemma DeferredStep(s: State, a: Step, h: Handle)
    requires Inv(s) && Enabled(s, a) && h in s.pool.delayRm
    ensures h in Do(s, a).pool.delayRm || h in Do(s, a).pool.freed
  {
    hide Inv, CoreOk, ReadOn, Append, ConnFail, DrainAll, Move, Erase, Defer, FreeAll, FreeId, PingPrinted, DoSend,
         DoResume, DoOnConnected, DoDelete;
    NotGone(s, a);
    if EntersHandler(a) {
      EntersFromQuiet(s, a);
      QuietDeferred(s);
    } else {
      match a
      case Send(g) => SendMoves(s, g, h);
      case Delete(g) => DeleteMoves(s, g);
      case ResumeHandler => ResumePrints(s, h);
      case DeletePing => DeferKeeps(s, h);
      case DrainDeferred =>
        DrainingIn(s);
        DrainAllOk(s);
      case Destroy => DeferredInUse(s);
      case Finish => DeferredInUse(s);
      case _ =>
    }
  }

  lemma DeferKeeps(s: State, h: Handle)
    requires s.ctl.pc.Cleanup? && h in s.pool.delayRm
    ensures h in DoDeletePing(s).pool.delayRm
  {
  }

  lemma DeferredInUse(s: State)
    requires Inv(s) && s.pool.delayRm != [] && s.ctl.pc != Gone
    ensures s.ctl.pc != Quiet && s.ctl.pc != Last
  {
    hide CoreOk, DeliveredOk, Coupled, PingOk, FirstOk, LogMatches;
  }

  /** A transaction deleted inside the window is sent all the same if and only if
      it was ready, or sent before. */
  lemma DeletedInWindow(disablePing: bool, states: seq<State>, steps: seq<Step>, i: nat, j: nat, h: Handle)
    requires Execution(disablePing, states, steps) && i < j < |steps|
    requires steps[i] == Delete(h) && Window(states[i].ctl.pc)
    requires steps[j] == ResumeHandler && forall n :: i < n < j ==> steps[n] != ResumeHandler
    ensures WasPrinted(states[j + 1].hist.printed, h)
            <==> h in states[i].pool.ready || WasPrinted(states[i].hist.printed, h)
  {
    hide Inv, Do, Enabled, WasPrinted, Prints, Window, Doomed;
    InvAlways(disablePing, states, steps, i);
    assert Enabled(states[i], steps[i]);
    NotDoomedYet(states[i], h);
    DoomedStep(states[i], steps[i], h);
    WhoIsPrinted(states[i], steps[i], h);
    assert !Prints(states[i], steps[i], h) by { NoPrintByDelete(states[i], h); }
    DeletedNow(states[i], h);
    DoomedUntil(disablePing, states, steps, i + 1, j, h);
    StaysDeleted(disablePing, states, steps, i + 1, j, h);
    InvAlways(disablePing, states, steps, j);
    assert Enabled(states[j], steps[j]);
    WhoIsPrinted(states[j], steps[j], h);
    DeletedPrints(states[j], steps[j], h);
    ResumeEnabled(states[j]);
  }

  lemma ResumeEnabled(s: State)
    requires Enabled(s, ResumeHandler)
    ensures s.ctl.pc.Cleaned?
  {
  }

  lemma NoPrintByDelete(s: State, h: Handle)
    ensures !Prints(s, Delete(h), h)
  {
  }

  lemma NotDoomedYet(s: State, h: Handle)
    requires Enabled(s, Delete(h))
    ensures !Doomed(s, h)
  {
  }

  lemma DeletedNow(s: State, h: Handle)
    requires Enabled(s, Delete(h))
    ensures Deleted(Do(s, Delete(h)), h)
  {
    DeleteMoves(s, h);
    hide DoDelete;
  }

  lemma {:induction false} DoomedUntil(disablePing: bool, states: seq<State>, steps: seq<Step>, i: nat, j: nat, h: Handle)
    requires Execution(disablePing, states, steps) && i <= j < |states| && Deleted(states[i], h)
    requires forall n :: i <= n < j ==> steps[n] != ResumeHandler
    ensures Doomed(states[j], h) <==> Doomed(states[i], h)
    ensures WasPrinted(states[j].hist.printed, h) <==> WasPrinted(states[i].hist.printed, h)
    decreases j
  {
    hide Inv, Do, Enabled, WasPrinted, Prints, Window, Doomed, Deleted;
    if i < j {
      DoomedUntil(disablePing, states, steps, i, j - 1, h);
      InvAlways(disablePing, states, steps, j - 1);
      var s, a := states[j - 1], steps[j - 1];
      assert Enabled(s, a);
      StaysDeleted(disablePing, states, steps, i, j - 1, h);
      DeletedOnce(s, a, h);
      DoomedStep(s, a, h);
      WhoIsPrinted(s, a, h);
      DeletedPrints(s, a, h);
    }
  }

  /** What is deleted cannot be deleted again. */
  lemma DeletedOnce(s: State, a: Step, h: Handle)
    requires Inv(s) && Enabled(s, a) && Deleted(s, h)
    ensures a != Delete(h)
  {
    hide Inv, FreeId, PingPrinted;
    LiveNotFreed(s, h);
  }
}
