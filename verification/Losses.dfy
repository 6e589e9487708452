/** Every way to lose a connection, a report by the I/O layer, a malformed reply, a
    ping without answer: what the user is told, and what becomes of the transactions. */
module Losses {
  import opened Bytes
  import opened Pool
  import opened Engine
  import opened Core
  import opened CoreMoves
  import opened Effects
  import opened Invariant
  import opened Steps
  import opened HandlerSteps
  import opened PingSteps
  import opened Progress
  import opened Runs
  import opened Shutdown
  import Framing

  /** The members of `q` that are pending, in order. */
  function StillPending(q: seq<Handle>, txns: map<Handle, Txn>): seq<Handle> {
    if q == [] then []
    else (if q[0] in txns && txns[q[0]].status == Status.Pending then [q[0]] else []) + StillPending(q[1..], txns)
  }

  /** The members of `q` that were lost with their connection, in order. */
  function LostOf(q: seq<Handle>, txns: map<Handle, Txn>): seq<Handle> {
    if q == [] then []
    else (if q[0] in txns && txns[q[0]].fate == Lost then [q[0]] else []) + LostOf(q[1..], txns)
  }

  lemma {:induction false} StillIn(q: seq<Handle>, txns: map<Handle, Txn>, h: Handle)
    ensures h in StillPending(q, txns) <==> h in q && h in txns && txns[h].status == Status.Pending
  {
    if q != [] {
      StillIn(q[1..], txns, h);
    }
  }

  lemma {:induction false} AllStill(q: seq<Handle>, txns: map<Handle, Txn>)
    requires forall h :: h in q ==> h in txns && txns[h].status == Status.Pending
    ensures StillPending(q, txns) == q
  {
    if q != [] {
      AllStill(q[1..], txns);
    }
  }

  lemma {:induction false} StillElsewhere(q: seq<Handle>, txns: map<Handle, Txn>, h: Handle, t: Txn)
    requires h !in q
    ensures StillPending(q, txns[h := t]) == StillPending(q, txns)
  {
    if q != [] {
      StillElsewhere(q[1..], txns, h, t);
    }
  }

  /** When a transaction stops being pending, it leaves its place. */
  lemma {:induction false} StillAfter(q: seq<Handle>, txns: map<Handle, Txn>, h: Handle, t: Txn)
    requires NoDup(q) && t.status != Status.Pending
    ensures StillPending(q, txns[h := t]) == Without(StillPending(q, txns), h)
  {
    if q != [] {
      HeadNotInTail(q);
      StillAfter(q[1..], txns, h, t);
      var rest := StillPending(q[1..], txns);
      if q[0] == h {
        StillElsewhere(q[1..], txns, h, t);
        StillIn(q[1..], txns, h);
        assert ([h] + rest)[1..] == rest;
      } else if q[0] in txns && txns[q[0]].status == Status.Pending {
        assert ([q[0]] + rest)[1..] == rest;
        assert StillPending(q, txns) == [q[0]] + rest;
        assert Without([q[0]] + rest, h) == [q[0]] + Without(rest, h);
      } else {
        assert [] + rest == rest && [] + Without(rest, h) == Without(rest, h);
      }
    }
  }

  lemma {:induction false} LostAreStill(q: seq<Handle>, txns: map<Handle, Txn>, p: seq<Handle>)
    requires forall h :: h in q ==> h in txns
    requires forall h :: h in q ==> (h in p <==> txns[h].status == Status.Pending)
    requires forall h :: h in q && h !in p ==> txns[h].fate != Lost
    ensures LostOf(q, LostAll(txns, p)) == StillPending(q, txns)
  {
    hide REFUSAL;
    if q != [] {
      LostAreStill(q[1..], txns, p);
    }
  }

  // ----- reading -----

  predicate Settling(q: seq<Handle>, txns: map<Handle, Txn>) {
    forall h :: h in q ==> h in txns && (txns[h].status == Status.Pending || (txns[h].status == Status.Done && txns[h].fate.Answered?))
  }

  predicate Quietly(e: Event) {
    e == ConnConnected || e.TransDone?
  }

  /** Reading from `s` on got to `r`: of the transactions `q`, those without a reply
      make up the pending queue, and nothing but replies was reported. */
  predicate ReadTo(q: seq<Handle>, s: State, r: State) {
    && r.pool.pending == StillPending(q, r.pool.txns) && Settling(q, r.pool.txns)
    && r.pool.ready == s.pool.ready && r.link == s.link.(inbuf := r.link.inbuf)
    && s.ctl.batch <= r.ctl.batch && forall i :: |s.ctl.batch| <= i < |r.ctl.batch| ==> Quietly(r.ctl.batch[i])
  }

  lemma AnswerTo(q: seq<Handle>, s: State, h: Handle, m: Framing.Message)
    requires ReadTo(q, s, s) && NoDup(q) && h in s.pool.txns && s.pool.txns[h].status == Status.Pending
    ensures ReadTo(q, s, Answer(s, h, m)) && ReadTo(q, s, Report(Answer(s, h, m), h))
  {
    hide BuildResponse, NoDup, StillPending, Without;
    var t := Settled(s.pool.txns[h], BuildResponse(m.data), Answered(m.data));
    StillAfter(q, s.pool.txns, h, t);
    StillAfter(q, s.pool.txns, h, t.(timer := false));
    assert s.pool.txns[h := t][h := t.(timer := false)] == s.pool.txns[h := t.(timer := false)];
  }

  lemma ReadToTrans(q: seq<Handle>, s: State, m: State, r: State)
    requires ReadTo(q, s, m) && ReadTo(q, m, r)
    ensures ReadTo(q, s, r)
  {
    hide StillPending, Settling;
    assert forall i :: |s.ctl.batch| <= i < |m.ctl.batch| ==> r.ctl.batch[i] == m.ctl.batch[i];
  }

  lemma {:induction false} LoopTo(q: seq<Handle>, s: State)
    requires ReadTo(q, s, s) && NoDup(q)
    ensures ReadTo(q, s, ReadLoop(s).0)
    decreases |s.link.inbuf|
  {
    hide Framing.NextFrame, BuildResponse, Report, Answer, ReadLoop, NoDup, StillPending, Settling;
    ReadLoopFlat(s);
    var n := Framing.NextFrame(s.link.inbuf);
    if n.Got? {
      var s1 := Consume(s, n.msg, n.rest);
      match PendingHolder(s.pool, n.msg.id)
      case None => LoopTo(q, s1);
      case Some(h) =>
        AnswerTo(q, s1, h, n.msg);
        if s.link.pingTxn != Some(h) {
          var r := Report(Answer(s1, h, n.msg), h);
          AnswerReportFrame(s1, h, n.msg);
          LoopTo(q, r);
          ReadToTrans(q, s1, r, ReadLoop(r).0);
        }
    }
  }

  // ----- the loss -----

  /** The transactions that this step sends before anything can go wrong. */
  function SentFirst(s: State, a: Step): seq<Handle> {
    if a == ResumeHandler && s.ctl.pc.Cleaned? && s.ctl.pc.k != FromTimeout then s.pool.ready else []
  }

  /** What the user is told at the end. */
  function Ending(s: State, a: Step): Event {
    if s.link.status in {Disconnecting, IdleTimeout} || a == OnLinkLost(false) then ConnDisconnect else ConnError
  }

  function ReportOf(s: State, a: Step, r: State): seq<Event> {
    (if s.link.status == IdleTimeout then [] else NoConnects(r.pool.ready))
    + Errors(LostOf(s.pool.pending + SentFirst(s, a), r.pool.txns)) + [Ending(s, a)]
  }

  /** Step `a` lost the connection. Before that it queued `first`, a CONNECTED or
      replies. Then: NOCONNECT for each ready transaction, unless the connection was
      closing for idleness; ERROR for each pending one; one connection event; both in
      queue order. Everything that was pending is answered or lost, the ready
      transactions stay. */
  predicate LossReported(s: State, a: Step, r: State, first: seq<Event>) {
    && r.ctl.batch == s.ctl.batch + first + ReportOf(s, a, r)
    && (forall i :: 0 <= i < |first| ==> Quietly(first[i]))
    && r.pool.pending == []
    && r.pool.ready == (if SentFirst(s, a) == [] then s.pool.ready else [])
    && (forall h :: h in s.pool.pending + SentFirst(s, a) ==>
          h in r.pool.txns && (r.pool.txns[h].fate == Lost || r.pool.txns[h].fate.Answered?))
    && r.link.outbuf == [] && r.link.inbuf == [] && r.link.timer == NoTimer && r.link.io == NoIo
  }

  /** From the state `u` in which the loss is noticed. */
  lemma LossFrom(s: State, a: Step, u: State, isError: bool, away: set<Handle>)
    requires CoreOk(u, away)
    requires var q := s.pool.pending + SentFirst(s, a); u.pool.pending == StillPending(q, u.pool.txns) && Settling(q, u.pool.txns)
    requires s.ctl.batch <= u.ctl.batch && forall i :: |s.ctl.batch| <= i < |u.ctl.batch| ==> Quietly(u.ctl.batch[i])
    requires (u.link.status == IdleTimeout <==> s.link.status == IdleTimeout) && FinalEvent(u.link.status, isError) == Ending(s, a)
    requires u.pool.ready == (if SentFirst(s, a) == [] then s.pool.ready else [])
    ensures LossReported(s, a, Goto(ConnFail(u, isError), Deliver), u.ctl.batch[|s.ctl.batch|..])
  {
    hide CoreOk, ConnFail, StillPending, LostOf, NoConnects, Errors, FinalEvent, Ending, SentFirst, Marks, Settled;
    var q := s.pool.pending + SentFirst(s, a);
    var first := u.ctl.batch[|s.ctl.batch|..];
    ConnFailIs(u, isError, away);
    var r := Goto(ConnFail(u, isError), Deliver);
    forall h | h in q ensures h in u.pool.pending <==> u.pool.txns[h].status == Status.Pending {
      StillIn(q, u.pool.txns, h);
    }
    LostAreStill(q, u.pool.txns, u.pool.pending);
    assert r.pool == Forsaken(u.pool);
    assert LossReport(u, isError) == ReportOf(s, a, r);
    assert u.ctl.batch == s.ctl.batch + first;
    LostOrAnswered(q, u.pool);
    hide Forsaken, LossReport, ReportOf;
    ForsakenFrame(u.pool);
  }

  lemma LostOrAnswered(q: seq<Handle>, p: Pool)
    requires Settling(q, p.txns) && forall h :: h in q ==> (h in p.pending <==> p.txns[h].status == Status.Pending)
    ensures var r := Forsaken(p); forall h :: h in q ==> h in r.txns && (r.txns[h].fate == Lost || r.txns[h].fate.Answered?)
  {
    hide REFUSAL;
  }

  lemma LinkLostReport(s: State, isError: bool)
    requires Inv(s) && s.ctl.pc == Quiet && s.link.io != NoIo
    ensures LossReported(s, OnLinkLost(isError), ConnFail(Enter(s), isError), [])
  {
    hide Inv, CoreOk, ConnFail, Exact, LossReported;
    Entered(s);
    QueueFacts(s, {});
    AllStill(s.pool.pending, s.pool.txns);
    assert s.pool.pending + [] == s.pool.pending;
    LossFrom(s, OnLinkLost(isError), Enter(s), isError, {});
    assert Enter(s).ctl.batch[|s.ctl.batch|..] == [];
    ConnFailPc(Enter(s), isError);
  }

  /** Reading from `t` on, with the transactions `q` pending, until the stream breaks. */
  lemma ReadReport(s: State, a: Step, t: State, away: set<Handle>)
    requires CoreOk(t, away) && t.pool.pending == s.pool.pending + SentFirst(s, a)
    requires t.link.pingTxn.Some? && t.link.pingTxn.value in t.pool.txns ==> t.pool.txns[t.link.pingTxn.value].ping
    requires s.ctl.batch <= t.ctl.batch && forall i :: |s.ctl.batch| <= i < |t.ctl.batch| ==> Quietly(t.ctl.batch[i])
    requires (t.link.status == IdleTimeout <==> s.link.status == IdleTimeout) && FinalEvent(t.link.status, true) == Ending(s, a)
    requires t.pool.ready == (if SentFirst(s, a) == [] then s.pool.ready else [])
    requires t.link.status != Disconnected && ReadOn(t).link.status == Disconnected
    ensures exists first :: LossReported(s, a, ReadOn(t), first)
  {
    hide CoreOk, ReadLoop, ConnFail, StillPending, LossReported, SentFirst, Ending, FinalEvent, NoDup, Without;
    var q := t.pool.pending;
    QueueFacts(t, away);
    AllStill(q, t.pool.txns);
    LoopTo(q, t);
    CoreReadLoop(t, away);
    var (r, end) := ReadLoop(t);
    assert end == Failed;
    var u := if r.pool.pending == [] then ResetTimer(r) else r;
    CoreTimer(r, u, away);
    assert forall i :: |s.ctl.batch| <= i < |t.ctl.batch| ==> u.ctl.batch[i] == t.ctl.batch[i];
    LossFrom(s, a, u, true, away);
  }

  lemma OnReadReport(s: State, b: seq<byte>)
    requires Inv(s) && s.ctl.pc == Quiet && s.link.io == Up
    requires ReadOn(Append(Enter(s), b)).link.status == Disconnected
    ensures exists first :: LossReported(s, OnRead(Some(b)), ReadOn(Append(Enter(s), b)), first)
  {
    hide Inv, CoreOk, ReadOn, Append, Exact, LossReported;
    AppendInv(s, b);
    AppendKeeps(s, b);
    var t := Append(Enter(s), b);
    PingPointer(t);
    UpIsNotDown(s);
    QuietBatch(s);
    assert s.pool.pending + [] == s.pool.pending;
    ReadReport(s, OnRead(Some(b)), t, {});
  }

  lemma UpIsNotDown(s: State)
    requires Inv(s) && s.ctl.pc == Quiet && s.link.io == Up
    ensures s.link.status != Disconnected
  {
    hide CoreOk, DeliveredOk, PingOk, FirstOk, LogMatches, CtlOk;
  }

  /** Inside the handler's deletion of the ping, nothing else is pending. */
  lemma NothingPending(s: State)
    requires Inv(s) && s.ctl.pc.Cleaned?
    ensures s.pool.pending == [] && s.link.status == Connecting
  {
    hide CoreOk, DeliveredOk, FirstOk, LogMatches, CtlOk, NoPings, PingIs;
  }

  lemma OpenUpSends(s: State)
    requires Inv(s) && s.ctl.pc.Cleaned?
    ensures var t := OpenUp(s);
            && t.pool.pending == s.pool.pending + s.pool.ready && t.pool.ready == []
            && t.ctl == s.ctl.(batch := s.ctl.batch + [ConnConnected])
            && t.link.status == Connected && t.link.pingTxn == None
  {
    hide Inv, CoreOk, PromoteAll, SentAll, Stream, PrintsOf;
    InvCore(s);
    var c := s.(link := s.link.(pingTxn := None, status := Connected));
    CoreTimer(s, c, Away(s));
    CoreEmit(c, ConnConnected, Away(s));
    PromoteAllIs(Emit(c, ConnConnected), Away(s));
  }

  lemma ResumeReport(s: State)
    requires Inv(s) && s.ctl.pc.Cleaned? && DoResume(s).link.status == Disconnected
    ensures exists first :: LossReported(s, ResumeHandler, DoResume(s), first)
  {
    hide Inv, CoreOk, OpenUp, ReadOn, ConnFail, Exact, LossReported;
    NothingPending(s);
    if s.ctl.pc.k == FromTimeout {
      InvCore(s);
      var t := s.(link := s.link.(pingTxn := None));
      CoreTimer(s, t, Away(s));
      assert s.pool.pending + SentFirst(s, ResumeHandler) == [];
      LossFrom(s, ResumeHandler, t, true, Away(s));
    } else {
      OpenUpSends(s);
      assert s.ctl.pc.k == FromRead;
      OpenUpInv(s);
      var t := Goto(OpenUp(s), Deliver);
      InvCore(t);
      CoreTimer(t, OpenUp(s), Away(t));
      ReadReport(s, ResumeHandler, OpenUp(s), Away(t));
    }
  }

  /** Which steps lose a connection. */
  predicate CanLose(a: Step) {
    a.OnLinkLost? || a == ResumeHandler || (a.OnRead? && a.input.Some?)
  }

  lemma OthersKeepStatus(s: State, a: Step)
    requires Inv(s) && Enabled(s, a) && !CanLose(a) && s.link.status != Disconnected
    ensures Do(s, a).link.status != Disconnected
  {
    hide Inv, CoreOk, DrainAll, Move, Erase, Defer, FreeAll, FreeId, PingPrinted, Add, DoSend, Without, DoOnConnected;
    match a
    case Send(h) => SendStatus(s, h);
    case OnConnected(id, n) => ConnectedStatus(s, id, n);
    case DrainDeferred => DrainKeepsLink(s);
    case _ =>
  }

  lemma SendStatus(s: State, h: Handle)
    requires Inv(s) && Enabled(s, Step.Send(h))
    ensures Do(s, Step.Send(h)).link.status == s.link.status
  {
    hide Inv, CoreOk, SendMessages, Move;
    InvCore(s);
    if Sendable(s.pool.txns[h]) {
      CoreMovesReady(s, h);
      SendKeeps(MakeReady(s, h), Away(s));
    }
  }

  lemma LossStep(s: State, a: Step)
    requires Inv(s) && Enabled(s, a) && s.link.status != Disconnected && Do(s, a).link.status == Disconnected
    ensures exists first :: LossReported(s, a, Do(s, a), first)
  {
    hide Inv, ReadOn, Append, ConnFail, DoResume, LossReported, Enter;
    if !CanLose(a) {
      OthersKeepStatus(s, a);
    } else if a.OnLinkLost? {
      LinkLostReport(s, a.isError);
    } else if a == ResumeHandler {
      ResumeReport(s);
    } else {
      OnReadReport(s, a.input.value);
    }
  }

  /** However a connection is lost in a run, the failure is reported in full. */
  lemma EveryLossReported(disablePing: bool, states: seq<State>, steps: seq<Step>, i: nat)
    returns (first: seq<Event>)
    requires Execution(disablePing, states, steps) && i < |steps|
    requires states[i].link.status != Disconnected && states[i + 1].link.status == Disconnected
    ensures LossReported(states[i], steps[i], states[i + 1], first)
  {
    assert Enabled(states[i], steps[i]) && states[i + 1] == Do(states[i], steps[i]);
    InvAlways(disablePing, states, steps, i);
    hide Execution, Inv, Do, Enabled, LossReported;
    LossStep(states[i], steps[i]);
    first :| LossReported(states[i], steps[i], states[i + 1], first);
  }
}
