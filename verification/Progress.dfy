/** Every step only adds to the history and only moves transactions forward. */
module Progress {
  import opened Bytes
  import opened Pool
  import opened Engine
  import opened Core
  import opened CoreMoves
  import opened Effects
  import opened Invariant
  import opened Steps
  import opened HandlerSteps
  import opened PingSteps
  import KeyValue
  import Framing

  function Rank(st: Status): nat {
    match st
    case New => 0
    case Ready => 1
    case Pending => 2
    case Done => 3
  }

  /** `u` is `t` later: same transaction, status no earlier, outcome final. */
  predicate Later(t: Txn, u: Txn) {
    && SameTxn(t, u)
    && Rank(t.status) <= Rank(u.status)
    && (t.status == Status.Done ==> u.fate == t.fate && u.response == t.response)
  }

  predicate PoolAdvances(p: Pool, q: Pool) {
    && p.freed <= q.freed && p.next <= q.next
    && (forall h :: h in p.txns ==> (h in q.txns && Later(p.txns[h], q.txns[h])) || h in q.freed)
  }

  predicate HistAdvances(a: History, b: History) {
    && a.printed <= b.printed && a.log <= b.log && a.delivered <= b.delivered && a.replies <= b.replies
    && a.past <= b.past
  }

  predicate Advances(s: State, r: State) {
    PoolAdvances(s.pool, r.pool) && HistAdvances(s.hist, r.hist)
  }

  lemma PoolAdvancesTrans(p: Pool, m: Pool, q: Pool)
    requires PoolAdvances(p, m) && PoolAdvances(m, q)
    ensures PoolAdvances(p, q)
  {
  }

  lemma AdvancesTrans(s: State, m: State, r: State)
    requires Advances(s, m) && Advances(m, r)
    ensures Advances(s, r)
  {
    hide PoolAdvances;
    PoolAdvancesTrans(s.pool, m.pool, r.pool);
  }

  lemma AdvancesRefl(s: State)
    ensures Advances(s, s)
  {
  }

  // ----- pools -----

  lemma AddAdvances(p: Pool, t: Txn)
    requires p.next !in p.txns
    ensures PoolAdvances(p, Add(p, t))
  {
  }

  lemma EditAdvances(p: Pool, h: Handle, t: Txn)
    requires h in p.txns && Later(p.txns[h], t)
    ensures PoolAdvances(p, Edit(p, h, t))
  {
  }

  lemma MoveAdvances(p: Pool, h: Handle, t: Txn)
    requires h in p.txns && Later(p.txns[h], t)
    ensures PoolAdvances(p, Move(p, h, t))
  {
    hide Without;
  }

  lemma EraseAdvances(p: Pool, h: Handle)
    requires h in p.txns
    ensures PoolAdvances(p, Erase(p, h))
  {
    hide Without;
  }

  lemma DrainHeadAdvances(p: Pool)
    requires p.delayRm != [] && p.delayRm[0] in p.txns
    ensures PoolAdvances(p, DrainHead(p))
  {
    hide Without;
  }

  lemma PromotedAdvances(s: State)
    requires forall h :: h in s.pool.ready ==> h in s.pool.txns && s.pool.txns[h].status == Status.Ready
    ensures Advances(s, Promoted(s))
  {
    hide PrintsOf, Stream;
  }

  lemma ForsakenAdvances(p: Pool)
    requires forall h :: h in p.pending ==> h in p.txns && p.txns[h].status == Status.Pending
    ensures PoolAdvances(p, Forsaken(p))
  {
    hide REFUSAL;
  }

  lemma FreeAllAdvances(p: Pool, away: set<Handle>)
    requires PoolOk(p, {})
    ensures PoolAdvances(p, FreeAll(p))
  {
    hide Ledger, NoDup;
    assert FreeAll(p).freed == p.freed + (p.newq + p.ready + p.pending + p.done);
  }

  // ----- loops -----

  lemma SendAdvances(s: State, away: set<Handle>)
    requires CoreOk(s, away)
    ensures Advances(s, SendMessages(s))
  {
    hide CoreOk, Promoted, PromoteAll, PoolAdvances;
    AdvancesRefl(s);
    if s.link.status == Connected {
      QueueFacts(s, away);
      PromoteAllIs(s, away);
      PromotedAdvances(s);
    }
  }

  lemma ConnFailAdvances(s: State, isError: bool, away: set<Handle>)
    requires CoreOk(s, away)
    ensures Advances(s, ConnFail(s, isError))
  {
    hide CoreOk, ConnFail, Forsaken, PoolAdvances, LossReport, Marks;
    QueueFacts(s, away);
    ConnFailIs(s, isError, away);
    ForsakenAdvances(s.pool);
  }

  lemma AnswerAdvances(s: State, h: Handle, m: Framing.Message)
    requires h in s.pool.txns && s.pool.txns[h].status == Status.Pending
    ensures Advances(s, Answer(s, h, m))
  {
    hide BuildResponse, Move, PoolAdvances;
    MoveAdvances(s.pool, h, Settled(s.pool.txns[h], BuildResponse(m.data), Answered(m.data)));
  }

  lemma ReportAdvances(s: State, h: Handle)
    requires h in s.pool.txns
    ensures Advances(s, Report(s, h))
  {
    hide PoolAdvances;
    EditAdvances(s.pool, h, s.pool.txns[h].(timer := false));
  }

  lemma {:induction false} ReadAdvances(s: State)
    ensures Advances(s, ReadLoop(s).0)
    decreases |s.link.inbuf|
  {
    hide Framing.NextFrame, BuildResponse, Report, Answer, ReadLoop, PoolAdvances;
    ReadLoopFlat(s);
    var n := Framing.NextFrame(s.link.inbuf);
    AdvancesRefl(s);
    if n.Got? {
      var s1 := Consume(s, n.msg, n.rest);
      var holder := PendingHolder(s.pool, n.msg.id);
      if holder == None {
        ReadAdvances(s1);
      } else {
        var h := holder.value;
        AnswerAdvances(s1, h, n.msg);
        var a := Answer(s1, h, n.msg);
        if s.link.pingTxn != Some(h) {
          ReportAdvances(a, h);
          AnswerReportFrame(s1, h, n.msg);
          ReadAdvances(Report(a, h));
          AdvancesTrans(s1, a, Report(a, h));
          AdvancesTrans(s1, Report(a, h), ReadLoop(s).0);
        }
      }
    }
  }

  lemma {:induction false} DrainAdvances(s: State)
    ensures Advances(s, DrainAll(s))
    decreases |s.pool.delayRm|
  {
    hide DrainHead, PoolAdvances;
    if s.pool.delayRm != [] && s.pool.delayRm[0] in s.pool.txns {
      var r := DeleteNow(s, DrainHead(s.pool));
      DrainHeadAdvances(s.pool);
      DrainHeadShorter(s.pool);
      DrainAdvances(r);
      AdvancesTrans(s, r, DrainAll(r));
    } else {
      AdvancesRefl(s);
    }
  }

  lemma DrainHeadShorter(p: Pool)
    requires p.delayRm != [] && p.delayRm[0] in p.txns
    ensures |DrainHead(p).delayRm| < |p.delayRm|
  {
    hide Without;
  }

  lemma ReadOnAdvances(s: State, away: set<Handle>)
    requires CoreOk(s, away)
    requires s.link.pingTxn.Some? && s.link.pingTxn.value in s.pool.txns ==> s.pool.txns[s.link.pingTxn.value].ping
    ensures Advances(s, ReadOn(s))
  {
    hide CoreOk, ReadLoop, ConnFail, PoolAdvances;
    ReadAdvances(s);
    CoreReadLoop(s, away);
    var (r, end) := ReadLoop(s);
    match end
    case Drained =>
    case Failed =>
      var u := if r.pool.pending == [] then ResetTimer(r) else r;
      CoreTimer(r, u, away);
      ConnFailAdvances(u, true, away);
      AdvancesTrans(s, r, ConnFail(u, true));
    case PingAnswered =>
      CleanupAdvances(r, FromRead);
      AdvancesTrans(s, r, CleanupTake(r, FromRead));
  }

  lemma CleanupAdvances(s: State, k: Resume)
    ensures Advances(s, CleanupTake(s, k))
  {
    hide Without;
  }

  lemma OpenUpAdvances(s: State, away: set<Handle>)
    requires CoreOk(s, away)
    ensures Advances(s, OpenUp(s))
  {
    hide CoreOk, SendMessages, PoolAdvances;
    var c := s.(link := s.link.(pingTxn := None, status := Connected));
    CoreTimer(s, c, away);
    CoreEmit(c, ConnConnected, away);
    SendAdvances(Emit(c, ConnConnected), away);
    AdvancesRefl(s);
  }

  // ----- steps -----

  lemma ResumeAdvances(s: State)
    requires Inv(s) && s.ctl.pc.Cleaned?
    ensures Advances(s, DoResume(s))
  {
    match s.ctl.pc.k
    case FromTimeout =>
      hide CoreOk, Alive, ConnFail, PoolAdvances;
      var t := s.(link := s.link.(pingTxn := None));
      CoreTimer(s, t, Away(s));
      ConnFailAdvances(t, true, Away(s));
    case _ =>
      hide CoreOk, OpenUp, ReadOn, PoolAdvances;
      InvCore(s);
      OpenUpInv(s);
      OpenUpAdvances(s, Away(s));
      hide Inv;
      if s.ctl.pc.k == FromRead {
        var t := Goto(OpenUp(s), Deliver);
        InvCore(t);
        CoreTimer(t, OpenUp(s), Away(t));
        ReadOnAdvances(OpenUp(s), Away(t));
        AdvancesTrans(s, OpenUp(s), ReadOn(OpenUp(s)));
      }
  }

  lemma InvCore(s: State)
    requires Inv(s)
    ensures CoreOk(s, Away(s))
  {
  }

  lemma OnReadAdvances(s: State, b: seq<byte>)
    requires Inv(s) && s.ctl.pc == Quiet && s.link.io == Up
    ensures Advances(s, ReadOn(Append(Enter(s), b)))
  {
    hide CoreOk, ReadOn, PoolAdvances, Exact, Alive;
    AppendInv(s, b);
    Entered(s);
    var t := Append(Enter(s), b);
    ReadOnAdvances(t, {});
    AppendKeeps(s, b);
    AdvancesRefl(s);
  }

  lemma OnConnectedAdvances(s: State, id: nat, n: nat)
    requires Inv(s) && Enabled(s, OnConnected(id, n))
    ensures Advances(s, Do(s, OnConnected(id, n)))
  {
    hide CoreOk, PoolAdvances, PingPrinted, Alive, FreeId;
    if s.link.disablePing {
      var t := Enter(s).(link := s.link.(io := Up));
      AdvancesRefl(s);
      CleanupAdvances(t, FromConnected);
    } else {
      InvParts(s);
      PingParts(s, id);
      AddAdvances(s.pool, PingTxn(id));
    }
  }

  lemma DeleteAdvances(s: State, h: Handle)
    requires h in s.pool.txns
    ensures Advances(s, DoDelete(s, h))
  {
    hide PoolAdvances, Erase;
    var t := s.pool.txns[h].(timer := false);
    EditAdvances(s.pool, h, t);
    if s.ctl.inUse {
      DeferAdvances(s.pool, h);
    } else {
      var p := KillTimer(s.pool, h);
      EraseAdvances(p, h);
      PoolAdvancesTrans(s.pool, p, Erase(p, h));
    }
  }

  lemma DeferAdvances(p: Pool, h: Handle)
    requires h in p.txns
    ensures PoolAdvances(p, Defer(p, h))
  {
  }

  lemma DoSendAdvances(s: State, h: Handle)
    requires Inv(s) && Enabled(s, Step.Send(h))
    ensures Advances(s, Do(s, Step.Send(h)))
  {
    hide CoreOk, SendMessages, PoolAdvances, Alive, DeliveredOk, Move;
    AdvancesRefl(s);
    if Sendable(s.pool.txns[h]) {
      CoreMakeReady(s, h, Away(s));
      MoveAdvances(s.pool, h, Queued(s.pool.txns[h], s.hist.sends));
      SendAdvances(MakeReady(s, h), Away(s));
      AdvancesTrans(s, MakeReady(s, h), SendMessages(MakeReady(s, h)));
    }
  }

  lemma DemolishAdvances(s: State)
    requires Inv(s) && s.ctl.pc != Gone && !s.ctl.inUse
    ensures Advances(s, Demolish(s))
  {
    hide PoolOk, PoolAdvances, PrintsOk, InSendOrder, WireOk, PastOk, InputOk, TraceOk, BatchOk, RepliesOk, FreeAll;
    hide Coupled, PingOk, FirstOk, LogMatches, DeliveredOk;
    assert Away(s) == {};
    FreeAllAdvances(s.pool, {});
  }

  lemma SetAdvances(s: State, h: Handle, t: Txn)
    requires h in s.pool.txns && Later(s.pool.txns[h], t)
    ensures Advances(s, WithPool(s, Edit(s.pool, h, t)))
  {
    hide PoolAdvances;
    EditAdvances(s.pool, h, t);
  }

  lemma {:induction false} PrefixAdvances(s: State, r: State)
    requires r.pool == s.pool
    requires r.hist == s.hist.(log := r.hist.log, delivered := r.hist.delivered, wire := r.hist.wire)
    requires s.hist.log <= r.hist.log && s.hist.delivered <= r.hist.delivered
    ensures Advances(s, r)
  {
    AdvancesRefl(s);
    hide PoolAdvances;
  }

  predicate IsCall(a: Step) {
    a.New? || a.SetParam? || a.SetTimeout? || a.Send? || a.Delete? || a.Connect? || a.Disconnect? || a.SetIdleTimeout? || a.Destroy?
  }

  lemma CallAdvances(s: State, a: Step)
    requires Inv(s) && Enabled(s, a) && IsCall(a)
    ensures Advances(s, Do(s, a))
  {
    hide Inv, PoolAdvances, HistAdvances, SendMessages, Demolish, DoDelete, DoSend, FreeId, KeyValue.SetPair;
    match a
    case New(id) => NewAdvances(s, id);
    case SetParam(h, key, value) =>
      var t := s.pool.txns[h];
      SetAdvances(s, h, t.(request := KeyValue.SetPair(t.request, key, value)));
      AdvancesRefl(s);
    case SetTimeout(h, secs) =>
      SetAdvances(s, h, s.pool.txns[h].(timeout := secs));
      AdvancesRefl(s);
    case Send(h) => DoSendAdvances(s, h);
    case Delete(h) => DeleteAdvances(s, h);
    case Connect(ok) => PrefixAdvances(s, DoConnect(s, ok));
    case Disconnect => PrefixAdvances(s, DoDisconnect(s));
    case SetIdleTimeout(secs) => PrefixAdvances(s, DoSetIdleTimeout(s, secs));
    case Destroy =>
      if s.ctl.inUse { PrefixAdvances(s, DoDestroy(s)); } else { QuietAlive(s); DemolishAdvances(s); }
  }

  /** One step never takes anything back. */
  lemma StepAdvances(s: State, a: Step)
    requires Inv(s) && Enabled(s, a)
    ensures Advances(s, Do(s, a))
  {
    hide Inv, PoolAdvances, HistAdvances, ConnFail, ReadOn, DrainAll, Demolish, DoOnConnected, DoSend, DoDelete,
         DoResume, PingPrinted, FreeId, CleanupTake;
    match a
    case OnConnected(id, n) => OnConnectedAdvances(s, id, n);
    case OnLinkLost(isError) => LostAdvances(s, isError);
    case OnRead(input) =>
      if input.Some? { OnReadAdvances(s, input.value); } else { PrefixAdvances(s, Enter(s)); }
    case OnWrite(n) => PrefixAdvances(s, Enter(WriteOut(s, n)));
    case OnTransTimer(h) => TimeoutAdvances(s, h);
    case OnConnTimer => ConnTimerAdvances(s);
    case DeletePing => DeletePingAdvances(s);
    case ResumeHandler => ResumeAdvances(s);
    case TakeEvent => PrefixAdvances(s, DoTakeEvent(s));
    case CheckDestroy => PrefixAdvances(s, DoCheckDestroy(s));
    case DrainDeferred => DrainStepAdvances(s);
    case Reconnect(ok) => PrefixAdvances(s, DoReconnect(s, ok));
    case Finish =>
      if s.ctl.destroy { LastAlive(s); DemolishAdvances(s); } else { PrefixAdvances(s, Goto(s, Quiet)); }
    case _ => CallAdvances(s, a);
  }

  lemma NewAdvances(s: State, id: nat)
    requires Inv(s)
    ensures Advances(s, DoNew(s, id))
  {
    hide Inv, PoolAdvances;
    InvParts(s);
    AddAdvances(s.pool, Blank(id));
  }

  lemma QuietAlive(s: State)
    requires Inv(s) && s.ctl.pc == Quiet
    ensures !s.ctl.inUse
  {
    hide CoreOk, Coupled, PingOk, FirstOk, LogMatches, DeliveredOk;
  }

  lemma LastAlive(s: State)
    requires Inv(s) && s.ctl.pc == Last
    ensures !s.ctl.inUse
  {
    hide CoreOk, Coupled, PingOk, FirstOk, LogMatches, DeliveredOk;
  }

  lemma LostAdvances(s: State, isError: bool)
    requires Inv(s) && s.ctl.pc == Quiet
    ensures Advances(s, ConnFail(Enter(s), isError))
  {
    hide Inv, CoreOk, ConnFail, PoolAdvances, Exact;
    Entered(s);
    ConnFailAdvances(Enter(s), isError, {});
  }

  lemma TimeoutAdvances(s: State, h: Handle)
    requires h in s.pool.txns
    ensures Advances(s, DoOnTransTimer(s, h))
  {
    hide PoolAdvances;
    EditAdvances(s.pool, h, s.pool.txns[h].(timer := false));
  }

  lemma ConnTimerAdvances(s: State)
    ensures Advances(s, DoOnConnTimer(s))
  {
    hide PoolAdvances, CleanupTake;
    AdvancesRefl(s);
    CleanupAdvances(Enter(s), FromTimeout);
  }

  lemma DeletePingAdvances(s: State)
    requires s.ctl.pc.Cleanup?
    ensures Advances(s, DoDeletePing(s))
  {
    hide PoolAdvances, Defer;
    AdvancesRefl(s);
    if s.link.pingTxn.Some? && s.link.pingTxn.value in s.pool.txns {
      DeferAdvances(s.pool, s.link.pingTxn.value);
    }
  }

  lemma DrainStepAdvances(s: State)
    ensures Advances(s, DoDrain(s))
  {
    hide PoolAdvances, DrainAll;
    DrainAdvances(s);
  }
}
