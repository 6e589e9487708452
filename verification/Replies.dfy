/** Which replies were taken: each belongs to a transaction that was on the wire, and
    no transaction takes two. */
module Replies {
  import opened Bytes
  import opened Pool
  import opened Engine
  import opened Core
  import opened CoreMoves
  import opened Effects
  import opened Invariant
  import opened Steps
  import opened HandlerSteps
  import opened PingSteps
  import opened Progress
  import opened Runs
  import opened Shutdown
  import Framing

  /** Every reply taken so far was for another transaction, which is done by now. */
  predicate Distinct(txns: map<Handle, Txn>, replies: seq<Reply>) {
    && (forall i, j :: 0 <= i < j < |replies| ==> replies[i].trans != replies[j].trans)
    && (forall i :: 0 <= i < |replies| && replies[i].trans in txns ==> txns[replies[i].trans].status == Status.Done)
  }

  predicate InRange(replies: seq<Reply>, next: Handle) {
    forall i :: 0 <= i < |replies| ==> replies[i].trans < next
  }

  lemma AnswerDistinct(s: State, h: Handle, m: Framing.Message)
    requires h in s.pool.txns && s.pool.txns[h].status == Status.Pending && h < s.pool.next
    requires Distinct(s.pool.txns, s.hist.replies) && InRange(s.hist.replies, s.pool.next)
    ensures var r := Answer(s, h, m); Distinct(r.pool.txns, r.hist.replies) && InRange(r.hist.replies, r.pool.next)
  {
    hide BuildResponse, Without;
  }

  lemma ReportDistinct(s: State, h: Handle)
    requires h in s.pool.txns && Distinct(s.pool.txns, s.hist.replies)
    ensures var r := Report(s, h); Distinct(r.pool.txns, r.hist.replies) && r.hist.replies == s.hist.replies && r.pool.next == s.pool.next
    ensures Report(s, h).pool.txns.Keys == s.pool.txns.Keys
  {
  }

  lemma AnswerKeys(s: State, h: Handle, m: Framing.Message)
    requires h in s.pool.txns
    ensures Answer(s, h, m).pool.txns.Keys == s.pool.txns.Keys && Answer(s, h, m).pool.next == s.pool.next
    ensures Answer(s, h, m).link == s.link
  {
    hide BuildResponse, Without;
  }

  lemma {:induction false} LoopDistinct(s: State)
    requires Distinct(s.pool.txns, s.hist.replies) && InRange(s.hist.replies, s.pool.next)
    requires forall h :: h in s.pool.txns.Keys ==> h < s.pool.next
    ensures var r := ReadLoop(s).0; Distinct(r.pool.txns, r.hist.replies) && InRange(r.hist.replies, r.pool.next)
    decreases |s.link.inbuf|
  {
    hide Framing.NextFrame, BuildResponse, Report, Answer, ReadLoop, Distinct, InRange;
    ReadLoopFlat(s);
    var n := Framing.NextFrame(s.link.inbuf);
    if n.Got? {
      var s1 := Consume(s, n.msg, n.rest);
      match PendingHolder(s.pool, n.msg.id)
      case None => LoopDistinct(s1);
      case Some(h) =>
        assert h in s.pool.txns.Keys;
        AnswerDistinct(s1, h, n.msg);
        AnswerKeys(s1, h, n.msg);
        if s.link.pingTxn != Some(h) {
          var r := Report(Answer(s1, h, n.msg), h);
          ReportDistinct(Answer(s1, h, n.msg), h);
          AnswerReportFrame(s1, h, n.msg);
          LoopDistinct(r);
        }
    }
  }

  /** A step that takes no reply keeps this, for what is done stays done. */
  lemma AdvanceDistinct(s: State, r: State)
    requires Inv(s) && Inv(r) && Advances(s, r)
    requires Distinct(s.pool.txns, s.hist.replies) && InRange(s.hist.replies, s.pool.next)
    requires r.hist.replies == s.hist.replies && forall h :: h in s.pool.freed ==> h !in r.pool.txns
    requires forall i :: 0 <= i < |s.hist.replies| ==> s.hist.replies[i].trans in s.pool.txns || s.hist.replies[i].trans in s.pool.freed
    ensures Distinct(r.pool.txns, r.hist.replies) && InRange(r.hist.replies, r.pool.next)
  {
    hide Inv, HistAdvances;
    forall i | 0 <= i < |r.hist.replies| && r.hist.replies[i].trans in r.pool.txns
      ensures r.pool.txns[r.hist.replies[i].trans].status == Status.Done
    {
      var h := r.hist.replies[i].trans;
      assert h in s.pool.txns;
      LiveNotFreed(r, h);
      assert Later(s.pool.txns[h], r.pool.txns[h]);
    }
  }

  lemma Accounts(s: State)
    requires Inv(s)
    ensures forall h: Handle :: h < s.pool.next ==> h in s.pool.txns || h in s.pool.freed
    ensures forall h :: h in s.pool.txns.Keys ==> h < s.pool.next
  {
    hide QueuesOk, Indexed, DeferredOk, TxnsOk, PrintsOk, InSendOrder, WireOk, PastOk, InputOk, TraceOk, BatchOk,
         RepliesOk, DeliveredOk, Alive, NoDup;
  }

  lemma ConnFailReplies(s: State, isError: bool, away: set<Handle>)
    requires CoreOk(s, away)
    ensures ConnFail(s, isError).hist.replies == s.hist.replies && ConnFail(s, isError).pool == Forsaken(s.pool)
  {
    hide CoreOk, ConnFail, LossReport, Marks, Forsaken;
    ConnFailIs(s, isError, away);
  }

  lemma ForsakenDistinct(p: Pool, replies: seq<Reply>)
    requires Distinct(p.txns, replies) && InRange(replies, p.next)
    ensures Distinct(Forsaken(p).txns, replies) && InRange(replies, Forsaken(p).next)
  {
    hide REFUSAL;
  }

  lemma ReadOnDistinct(s: State, away: set<Handle>)
    requires CoreOk(s, away) && Distinct(s.pool.txns, s.hist.replies) && InRange(s.hist.replies, s.pool.next)
    requires forall h :: h in s.pool.txns.Keys ==> h < s.pool.next
    requires s.link.pingTxn.Some? && s.link.pingTxn.value in s.pool.txns ==> s.pool.txns[s.link.pingTxn.value].ping
    ensures var r := ReadOn(s); Distinct(r.pool.txns, r.hist.replies) && InRange(r.hist.replies, r.pool.next)
  {
    hide CoreOk, ReadLoop, ConnFail, Without, Distinct, InRange, Forsaken;
    LoopDistinct(s);
    CoreReadLoop(s, away);
    var (r, end) := ReadLoop(s);
    var u := if r.pool.pending == [] then ResetTimer(r) else r;
    CoreTimer(r, u, away);
    if end == Failed {
      ConnFailReplies(u, true, away);
      ForsakenDistinct(u.pool, u.hist.replies);
    }
  }

  lemma OnReadDistinct(s: State, b: seq<byte>)
    requires Inv(s) && s.ctl.pc == Quiet && s.link.io == Up
    requires Distinct(s.pool.txns, s.hist.replies) && InRange(s.hist.replies, s.pool.next)
    ensures var r := ReadOn(Append(Enter(s), b)); Distinct(r.pool.txns, r.hist.replies) && InRange(r.hist.replies, r.pool.next)
  {
    hide CoreOk, ReadOn, Append, Alive, DeliveredOk, Exact, Distinct, InRange;
    AppendInv(s, b);
    AppendKeeps(s, b);
    AppendReplies(s, b);
    var t := Append(Enter(s), b);
    PingPointer(t);
    Accounts(s);
    ReadOnDistinct(t, {});
  }

  lemma AppendReplies(s: State, b: seq<byte>)
    ensures Append(Enter(s), b).hist.replies == s.hist.replies
  {
  }

  lemma OpenUpReplies(s: State)
    requires Inv(s) && s.ctl.pc.Cleaned? && s.ctl.pc.k != FromTimeout
    ensures OpenUp(s).hist.replies == s.hist.replies && OpenUp(s).pool.next == s.pool.next
    ensures OpenUp(s).pool.txns == SentAll(s.pool.txns, s.pool.ready)
  {
    hide Inv, CoreOk, PromoteAll, SentAll, Stream, PrintsOf;
    InvCore(s);
    var c := s.(link := s.link.(pingTxn := None, status := Connected));
    CoreTimer(s, c, Away(s));
    CoreEmit(c, ConnConnected, Away(s));
    PromoteAllIs(Emit(c, ConnConnected), Away(s));
  }

  lemma SentDistinct(txns: map<Handle, Txn>, q: seq<Handle>, replies: seq<Reply>)
    requires Distinct(txns, replies) && forall h :: h in q ==> h in txns && txns[h].status == Status.Ready
    ensures Distinct(SentAll(txns, q), replies)
  {
  }

  lemma ResumeDistinct(s: State)
    requires Inv(s) && s.ctl.pc.Cleaned? && Distinct(s.pool.txns, s.hist.replies) && InRange(s.hist.replies, s.pool.next)
    ensures var r := DoResume(s); Distinct(r.pool.txns, r.hist.replies) && InRange(r.hist.replies, r.pool.next)
  {
    hide Inv, CoreOk, OpenUp, ReadOn, ConnFail, Distinct, InRange, SentAll, Forsaken;
    InvParts(s);
    Accounts(s);
    if s.ctl.pc.k == FromTimeout {
      var t := s.(link := s.link.(pingTxn := None));
      CoreTimer(s, t, Away(s));
      ConnFailReplies(t, true, Away(s));
      ForsakenDistinct(t.pool, t.hist.replies);
    } else {
      OpenUpReplies(s);
      SentDistinct(s.pool.txns, s.pool.ready, s.hist.replies);
      if s.ctl.pc.k == FromRead {
        OpenUpInv(s) by { hide Exact; }
        var t := Goto(OpenUp(s), Deliver);
        InvCore(t);
        CoreTimer(t, OpenUp(s), Away(t));
        assert SentAll(s.pool.txns, s.pool.ready).Keys == s.pool.txns.Keys by { SentKeys(s.pool.txns, s.pool.ready); }
        ReadOnDistinct(OpenUp(s), Away(t));
      }
    }
  }

  lemma SentKeys(txns: map<Handle, Txn>, q: seq<Handle>)
    ensures SentAll(txns, q).Keys == txns.Keys
  {
  }

  predicate MayReply(a: Step) {
    a == ResumeHandler || (a.OnRead? && a.input.Some?)
  }

  /** Only reading takes replies. */
  lemma OthersTakeNone(s: State, a: Step)
    requires Inv(s) && Enabled(s, a) && !MayReply(a)
    ensures Do(s, a).hist.replies == s.hist.replies
  {
    hide Inv, CoreOk, ReadOn, Append, ConnFail, DrainAll, Move, Erase, Defer, FreeAll, FreeId, PingPrinted, Add,
         DoSend, DoResume, Without;
    match a
    case Send(h) => SendReplies(s, h);
    case OnConnected(id, n) =>
      if !s.link.disablePing { PingParts(s, id); }
    case OnLinkLost(isError) =>
      Entered(s) by { hide Exact; }
      ConnFailReplies(Enter(s), isError, {});
    case DrainDeferred => DrainKeepsLink(s);
    case _ =>
  }

  lemma SendReplies(s: State, h: Handle)
    requires Inv(s) && Enabled(s, Step.Send(h))
    ensures Do(s, Step.Send(h)).hist.replies == s.hist.replies
  {
    hide Inv, CoreOk, PromoteAll, Stream, PrintsOf, Move;
    InvCore(s);
    if Sendable(s.pool.txns[h]) {
      CoreMovesReady(s, h);
      PromoteAllIs(MakeReady(s, h), Away(s));
    }
  }

  lemma DistinctStep(s: State, a: Step)
    requires Inv(s) && Enabled(s, a) && Distinct(s.pool.txns, s.hist.replies) && InRange(s.hist.replies, s.pool.next)
    ensures var r := Do(s, a); Distinct(r.pool.txns, r.hist.replies) && InRange(r.hist.replies, r.pool.next)
  {
    hide Inv, Enabled, Do, Distinct;
    if a == ResumeHandler {
      ResumeReads(s);
    } else if MayReply(a) {
      ReadReads(s, a.input.value);
    } else {
      OthersTakeNone(s, a);
      StepAdvances(s, a);
      StepKeepsInv(s, a);
      Accounts(s);
      FreedStays(s, a);
      hide Advances;
      AdvanceDistinct(s, Do(s, a));
    }
  }

  lemma FreedStays(s: State, a: Step)
    requires Inv(s) && Enabled(s, a)
    ensures forall h :: h in s.pool.freed ==> h !in Do(s, a).pool.txns
  {
    hide Inv, Enabled, Do, HistAdvances, Later;
    StepAdvances(s, a);
    StepKeepsInv(s, a);
    forall h | h in s.pool.freed ensures h !in Do(s, a).pool.txns {
      LiveNotFreed(Do(s, a), h);
    }
  }

  lemma ResumeReads(s: State)
    requires Inv(s) && Enabled(s, ResumeHandler) && Distinct(s.pool.txns, s.hist.replies) && InRange(s.hist.replies, s.pool.next)
    ensures var r := Do(s, ResumeHandler); Distinct(r.pool.txns, r.hist.replies) && InRange(r.hist.replies, r.pool.next)
  {
    hide Inv, DoResume, Distinct, InRange;
    ResumeDistinct(s);
  }

  lemma ReadReads(s: State, b: seq<byte>)
    requires Inv(s) && Enabled(s, OnRead(Some(b))) && Distinct(s.pool.txns, s.hist.replies) && InRange(s.hist.replies, s.pool.next)
    ensures var r := Do(s, OnRead(Some(b))); Distinct(r.pool.txns, r.hist.replies) && InRange(r.hist.replies, r.pool.next)
  {
    hide Inv, ReadOn, Append, Enter, Distinct, InRange;
    OnReadDistinct(s, b);
  }

  lemma {:induction false} DistinctAlways(disablePing: bool, states: seq<State>, steps: seq<Step>, i: nat)
    requires Execution(disablePing, states, steps) && i < |states|
    ensures Distinct(states[i].pool.txns, states[i].hist.replies) && InRange(states[i].hist.replies, states[i].pool.next)
  {
    hide Inv, Do, Enabled;
    if i > 0 {
      hide Distinct, InRange;
      DistinctAlways(disablePing, states, steps, i - 1);
      InvAlways(disablePing, states, steps, i - 1);
      assert Enabled(states[i - 1], steps[i - 1]);
      DistinctStep(states[i - 1], steps[i - 1]);
    }
  }

  /** The first reply wins: over a whole run no transaction takes two replies,
      however many frames with its id arrive, on whatever connection. */
  lemma FirstReplyWins(disablePing: bool, states: seq<State>, steps: seq<Step>, i: nat, a: nat, b: nat)
    requires Execution(disablePing, states, steps) && i < |states|
    requires a < b < |states[i].hist.replies|
    ensures states[i].hist.replies[a].trans != states[i].hist.replies[b].trans
  {
    hide Execution;
    DistinctAlways(disablePing, states, steps, i);
  }
}
