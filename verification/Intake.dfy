/** Reading, over whole runs: what the engine takes off the wire does not depend on
    how the network cuts the bytes into reads. */
module Intake {
  import opened Bytes
  import opened Pool
  import opened Engine
  import opened Core
  import opened CoreMoves
  import opened Effects
  import opened Invariant
  import opened Steps
  import opened HandlerSteps
  import opened PingSteps
  import opened Progress
  import opened Runs
  import opened Shutdown
  import Framing
  import Verdicts

  /** The front of the buffer is not a complete frame. */
  predicate Settled(buf: seq<byte>) {
    Framing.NextFrame(buf).NeedMore?
  }

  /** Outside the one place where the handler leaves its read loop early. */
  predicate Reading(s: State) {
    !(Cleaning(s.ctl.pc) && s.ctl.pc.k == FromRead) ==> Settled(s.link.inbuf)
  }

  lemma {:induction false} LoopSettles(s: State)
    ensures ReadLoop(s).1 == Drained ==> Settled(ReadLoop(s).0.link.inbuf)
    decreases |s.link.inbuf|
  {
    hide Framing.NextFrame, BuildResponse, Report, Answer, ReadLoop;
    ReadLoopFlat(s);
    var n := Framing.NextFrame(s.link.inbuf);
    if n.Got? {
      var s1 := Consume(s, n.msg, n.rest);
      match PendingHolder(s.pool, n.msg.id)
      case None => LoopSettles(s1);
      case Some(h) =>
        AnswerReportFrame(s1, h, n.msg);
        if s.link.pingTxn != Some(h) {
          LoopSettles(Report(Answer(s1, h, n.msg), h));
        }
    }
  }

  lemma FailSettles(s: State, isError: bool, away: set<Handle>)
    requires CoreOk(s, away)
    ensures Settled(ConnFail(s, isError).link.inbuf)
  {
    hide CoreOk, ConnFail, LossReport, Marks, Forsaken;
    ConnFailIs(s, isError, away);
  }

  lemma ReadOnSettles(s: State, away: set<Handle>)
    requires CoreOk(s, away)
    requires s.link.pingTxn.Some? && s.link.pingTxn.value in s.pool.txns ==> s.pool.txns[s.link.pingTxn.value].ping
    ensures Reading(ReadOn(s))
  {
    hide CoreOk, ReadLoop, ConnFail, Settled, Without;
    LoopSettles(s);
    CoreReadLoop(s, away);
    var (r, end) := ReadLoop(s);
    var u := if r.pool.pending == [] then ResetTimer(r) else r;
    CoreTimer(r, u, away);
    if end == Failed {
      FailSettles(u, true, away);
    }
  }

  lemma OnReadSettles(s: State, b: seq<byte>)
    requires Inv(s) && s.ctl.pc == Quiet && s.link.io == Up
    ensures Reading(ReadOn(Append(Enter(s), b)))
  {
    hide CoreOk, ReadOn, Append, Alive, DeliveredOk, Exact, Reading;
    AppendInv(s, b);
    var t := Append(Enter(s), b);
    PingPointer(t);
    ReadOnSettles(t, {});
  }

  lemma OpenUpInbuf(s: State)
    requires Inv(s)
    ensures OpenUp(s).link.inbuf == s.link.inbuf
  {
    hide Inv, CoreOk, PromoteAll, Stream, PrintsOf;
    InvCore(s);
    var c := s.(link := s.link.(pingTxn := None, status := Connected));
    CoreTimer(s, c, Away(s));
    CoreEmit(c, ConnConnected, Away(s));
    PromoteAllIs(Emit(c, ConnConnected), Away(s));
  }

  lemma ResumeSettles(s: State)
    requires Inv(s) && s.ctl.pc.Cleaned? && Reading(s)
    ensures Reading(DoResume(s))
  {
    hide Inv, CoreOk, OpenUp, ReadOn, ConnFail, Settled;
    match s.ctl.pc.k
    case FromConnected => OpenUpInbuf(s);
    case FromRead =>
      OpenUpInv(s) by { hide Exact; }
      var t := Goto(OpenUp(s), Deliver);
      InvCore(t);
      CoreTimer(t, OpenUp(s), Away(t));
      ReadOnSettles(OpenUp(s), Away(t));
    case FromTimeout =>
      InvCore(s);
      var t := s.(link := s.link.(pingTxn := None));
      CoreTimer(s, t, Away(s));
      FailSettles(t, true, Away(s));
  }

  lemma SendInbuf(s: State, h: Handle)
    requires Inv(s) && Enabled(s, Step.Send(h))
    ensures Do(s, Step.Send(h)).link.inbuf == s.link.inbuf && Do(s, Step.Send(h)).ctl == s.ctl
  {
    hide Inv, CoreOk, PromoteAll, Stream, PrintsOf, Move;
    InvCore(s);
    if Sendable(s.pool.txns[h]) {
      CoreMovesReady(s, h);
      PromoteAllIs(MakeReady(s, h), Away(s));
      ReadySends(s, h);
    }
  }

  lemma ReadingStep(s: State, a: Step)
    requires Inv(s) && Enabled(s, a) && Reading(s)
    ensures Reading(Do(s, a))
  {
    hide Inv, CoreOk, ReadOn, Append, ConnFail, DrainAll, Move, Erase, Defer, FreeAll, FreeId, PingPrinted, Add,
         DoSend, DoResume, Settled, Without;
    match a
    case Send(h) => SendInbuf(s, h);
    case ResumeHandler => ResumeSettles(s);
    case OnConnected(id, n) =>
      if !s.link.disablePing { PingParts(s, id); }
    case OnRead(input) =>
      if input.Some? { OnReadSettles(s, input.value); }
    case OnLinkLost(isError) =>
      Entered(s) by { hide Exact; }
      FailSettles(Enter(s), isError, {});
    case DrainDeferred =>
      DrainKeepsLink(s);
      DrainKeepsCtl(s);
    case _ =>
  }

  lemma {:induction false} ReadingAlways(disablePing: bool, states: seq<State>, steps: seq<Step>, i: nat)
    requires Execution(disablePing, states, steps) && i < |states|
    ensures Reading(states[i])
  {
    hide Inv, Do, Enabled;
    if i > 0 {
      hide Reading;
      ReadingAlways(disablePing, states, steps, i - 1);
      InvAlways(disablePing, states, steps, i - 1);
      assert Enabled(states[i - 1], steps[i - 1]);
      ReadingStep(states[i - 1], steps[i - 1]);
    }
  }

  lemma SettledSplits(buf: seq<byte>)
    requires Settled(buf)
    ensures Framing.SplitAll(buf) == Framing.Split([], buf, false)
  {
    hide Framing.NextFrame;
  }

  /** However the bytes of a connection arrived, in every state of every run, but
      for the moment when the handler interrupts its read loop to delete the ping:
      the frames taken off so far are those of the whole input read at once, the
      input buffer holds exactly what that leaves, and the input is not malformed. */
  lemma ReadsAreOneStream(disablePing: bool, states: seq<State>, steps: seq<Step>, i: nat)
    requires Execution(disablePing, states, steps) && i < |states|
    requires !(Cleaning(states[i].ctl.pc) && states[i].ctl.pc.k == FromRead)
    ensures Framing.SplitAll(states[i].hist.input) == Framing.Split(states[i].hist.frames, states[i].link.inbuf, false)
  {
    ReadingAlways(disablePing, states, steps, i);
    InvAlways(disablePing, states, steps, i);
    SettledSplits(states[i].link.inbuf);
    hide Execution, PoolOk, PrintsOk, InSendOrder, WireOk, PastOk, TraceOk, BatchOk, RepliesOk, DeliveredOk, Alive,
         Settled, Framing.SplitAll;
    var f := states[i].hist.frames;
    assert f + [] == f;
  }

  /** The id under which the ping of this connection is waiting. */
  function PingId(s: State): nat {
    if s.link.pingTxn.Some? && s.link.pingTxn.value in s.pool.txns then s.pool.txns[s.link.pingTxn.value].id else 0
  }

  /** While only the ping is waited for, the read loop ends at the first frame with
      its id, else at the end of what can be split. */
  lemma {:induction false} PingVerdict(s: State, h: Handle, id: nat)
    requires s.link.pingTxn == Some(h) && h in s.pool.txns
    requires forall i :: PendingHolder(s.pool, i) == if i == id then Some(h) else None
    ensures var sp := Framing.SplitAll(s.link.inbuf);
            ReadLoop(s).1 == if Verdicts.HasId(sp.msgs, id) then PingAnswered else if sp.bad then Failed else Drained
    decreases |s.link.inbuf|
  {
    hide Framing.NextFrame, BuildResponse, Report, Answer, ReadLoop, PendingHolder;
    ReadLoopFlat(s);
    var n := Framing.NextFrame(s.link.inbuf);
    if n.Got? {
      var rest := Framing.SplitAll(n.rest).msgs;
      assert Framing.SplitAll(s.link.inbuf).msgs == [n.msg] + rest;
      assert PendingHolder(s.pool, n.msg.id) == if n.msg.id == id then Some(h) else None;
      Verdicts.HasIdCons(n.msg, rest, id);
      if n.msg.id != id {
        PingVerdict(Consume(s, n.msg, n.rest), h, id);
      }
    }
  }

  /** What reading from `t` on does to the status, once the ping is out of the way. */
  lemma ReadOnVerdict(t: State, away: set<Handle>)
    requires CoreOk(t, away) && PingSettled(t) && t.link.status != Disconnected
    requires t.link.pingTxn.Some? && t.link.pingTxn.value in t.pool.txns ==> t.pool.txns[t.link.pingTxn.value].ping
    ensures ReadOn(t).link.status == (if Framing.SplitAll(t.link.inbuf).bad then Disconnected else t.link.status)
  {
    hide CoreOk, ReadLoop, ConnFail, PingSettled, DispatchAll, Framing.SplitAll, Leftover;
    ReadLoopIsFold(t);
    CoreReadLoop(t, away);
    DispatchAllFrame(t, Framing.SplitAll(t.link.inbuf).msgs, t.link.inbuf, t.hist.frames);
    var (r, end) := ReadLoop(t);
    var u := if r.pool.pending == [] then ResetTimer(r) else r;
    CoreTimer(r, u, away);
    ConnFailEnds(u, true, away);
  }

  /** The same while the ping is waited for. */
  lemma ReadOnPinging(t: State, h: Handle, id: nat)
    requires CoreOk(t, {}) && t.link.pingTxn == Some(h) && h in t.pool.txns && t.pool.txns[h].ping && t.link.status != Disconnected
    requires forall i :: PendingHolder(t.pool, i) == if i == id then Some(h) else None
    ensures var sp := Framing.SplitAll(t.link.inbuf);
            ReadOn(t).link.status == (if sp.bad && !Verdicts.HasId(sp.msgs, id) then Disconnected else t.link.status)
  {
    hide CoreOk, ReadLoop, ConnFail, PendingHolder, Framing.SplitAll, Verdicts.HasId, Without;
    PingVerdict(t, h, id);
    CoreReadLoop(t, {});
    ReadLoopLink(t);
    var (r, end) := ReadLoop(t);
    var u := if r.pool.pending == [] then ResetTimer(r) else r;
    CoreTimer(r, u, {});
    ConnFailEnds(u, true, {});
  }

  lemma {:induction false} ReadLoopLink(s: State)
    ensures ReadLoop(s).0.link == s.link.(inbuf := ReadLoop(s).0.link.inbuf)
    ensures ReadLoop(s).0.hist.input == s.hist.input
    decreases |s.link.inbuf|
  {
    hide Framing.NextFrame, BuildResponse, Report, Answer, ReadLoop;
    ReadLoopFlat(s);
    var n := Framing.NextFrame(s.link.inbuf);
    if n.Got? {
      var s1 := Consume(s, n.msg, n.rest);
      match PendingHolder(s.pool, n.msg.id)
      case None => ReadLoopLink(s1);
      case Some(h) =>
        AnswerKeepsLink(s1, h, n.msg);
        AnswerReportFrame(s1, h, n.msg);
        AnswerInput(s1, h, n.msg);
        if s.link.pingTxn != Some(h) {
          ReadLoopLink(Report(Answer(s1, h, n.msg), h));
        }
    }
  }

  lemma AnswerInput(s: State, h: Handle, m: Framing.Message)
    requires h in s.pool.txns
    ensures Answer(s, h, m).hist.input == s.hist.input && Report(Answer(s, h, m), h).hist.input == s.hist.input
  {
    hide BuildResponse, Move;
  }

  /** While the connection is pinging, its ping is the one transaction waited for. */
  lemma PingIsHolder(s: State)
    requires Inv(s) && s.ctl.pc == Quiet && s.link.io == Up && s.link.status == Connecting
    ensures s.link.pingTxn.Some? && s.link.pingTxn.value in s.pool.txns && s.pool.txns[s.link.pingTxn.value].ping
    ensures forall i :: PendingHolder(s.pool, i) == if i == PingId(s) then s.link.pingTxn else None
  {
    PingAlone(s);
    Entered(s) by { hide Exact; }
    hide Inv;
    PoolPart(s, {});
    hide CoreOk;
    OnlyPingHolds(s, s.link.pingTxn.value) by { hide PoolOk, PendingHolder; }
    PingIndexed(s.pool, s.link.pingTxn.value);
  }

  lemma PingAlone(s: State)
    requires Inv(s) && s.ctl.pc == Quiet && s.link.io == Up && s.link.status == Connecting
    ensures s.link.pingTxn.Some? && s.link.pingTxn.value in s.pool.txns && s.pool.txns[s.link.pingTxn.value].ping
    ensures s.pool.pending == [s.link.pingTxn.value]
  {
    hide CoreOk, DeliveredOk, FirstOk, LogMatches, CtlOk, NoPings;
  }

  lemma PingIndexed(p: Pool, h: Handle)
    requires PoolOk(p, {}) && p.pending == [h] && h in p.txns
    ensures PendingHolder(p, p.txns[h].id) == Some(h)
    ensures forall i :: PendingHolder(p, i) == Some(h) ==> i == p.txns[h].id
  {
    hide NoDup, Accounted, DeferredOk, TxnsOk;
    assert h in p.pending;
  }

  /** A read ends the connection exactly when it makes the input so far malformed and,
      if the ping is still waited for, brings no frame with its id: that frame would
      interrupt the loop before the bad part is reached. */
  lemma MalformedEndsConnection(disablePing: bool, states: seq<State>, steps: seq<Step>, i: nat, b: seq<byte>)
    requires Execution(disablePing, states, steps) && i < |steps| && steps[i] == OnRead(Some(b))
    ensures var s := states[i];
            states[i + 1].link.status ==
            if Verdicts.Breaks(s.hist.input + b)
               && (s.link.status == Connecting ==> !Verdicts.Brings(s.link.inbuf + b, PingId(s))) then Disconnected
            else s.link.status
  {
    assert Enabled(states[i], steps[i]) && states[i + 1] == Do(states[i], steps[i]);
    InvAlways(disablePing, states, steps, i);
    ReadsAreOneStream(disablePing, states, steps, i);
    var s := states[i];
    Framing.SplitConcat(s.hist.input, b);
    Verdicts.StreamVerdict(s.hist.input + b);
    Verdicts.StreamBrings(s.link.inbuf + b, PingId(s));
    hide Execution, Inv, Framing.SplitAll, ReadOn, Verdicts.Breaks, Verdicts.Brings;
    ReadVerdictIs(s, b);
  }

  /** A read adds its bytes to what has been read on this connection. */
  lemma ReadsAddUp(disablePing: bool, states: seq<State>, steps: seq<Step>, i: nat, b: seq<byte>)
    requires Execution(disablePing, states, steps) && i < |steps| && steps[i] == OnRead(Some(b))
    ensures states[i + 1].hist.input == if states[i + 1].link.status == Disconnected then [] else states[i].hist.input + b
  {
    assert Enabled(states[i], steps[i]) && states[i + 1] == Do(states[i], steps[i]);
    InvAlways(disablePing, states, steps, i);
    hide Execution, Inv, ReadOn;
    ReadInputIs(states[i], b);
  }

  /** What has been read on this connection. */
  lemma ReadInputIs(s: State, b: seq<byte>)
    requires Inv(s) && s.ctl.pc == Quiet && s.link.io == Up
    ensures var r := ReadOn(Append(Enter(s), b));
            r.hist.input == if r.link.status == Disconnected then [] else s.hist.input + b
  {
    hide CoreOk, ReadLoop, ConnFail, Alive, DeliveredOk, Exact, Without;
    AppendInv(s, b);
    var t := Append(Enter(s), b);
    PingPointer(t);
    UpStatus(s);
    ReadLoopLink(t);
    CoreReadLoop(t, {});
    var (r, end) := ReadLoop(t);
    var u := if r.pool.pending == [] then ResetTimer(r) else r;
    CoreTimer(r, u, {});
    FailInput(u, true, {});
  }

  lemma FailInput(s: State, isError: bool, away: set<Handle>)
    requires CoreOk(s, away)
    ensures ConnFail(s, isError).hist.input == [] && ConnFail(s, isError).link.status == Disconnected
  {
    hide CoreOk, ConnFail, LossReport, Marks, Forsaken;
    ConnFailIs(s, isError, away);
  }

  lemma ReadVerdictIs(s: State, b: seq<byte>)
    requires Inv(s) && s.ctl.pc == Quiet && s.link.io == Up
    ensures var sp := Framing.SplitAll(s.link.inbuf + b);
            ReadOn(Append(Enter(s), b)).link.status ==
            if sp.bad && (s.link.status == Connecting ==> !Verdicts.HasId(sp.msgs, PingId(s))) then Disconnected
            else s.link.status
  {
    hide Inv, CoreOk, ReadOn, Exact, PingSettled, Framing.SplitAll, Verdicts.HasId, PendingHolder;
    AppendInv(s, b);
    var t := Append(Enter(s), b);
    UpStatus(s);
    PingPointer(t);
    if s.link.status == Connecting {
      PingIsHolder(s);
      ReadOnPinging(t, s.link.pingTxn.value, PingId(s));
    } else {
      ReadOnVerdict(t, {});
    }
  }

  /** When the handler goes on reading after the ping was answered, it ends the
      connection exactly when the input so far is malformed. */
  lemma MalformedAfterPing(disablePing: bool, states: seq<State>, steps: seq<Step>, i: nat)
    requires Execution(disablePing, states, steps) && i < |steps| && steps[i] == ResumeHandler
    requires states[i].ctl.pc == Cleaned(FromRead)
    ensures states[i + 1].link.status == if Verdicts.Breaks(states[i].hist.input) then Disconnected else Connected
  {
    assert Enabled(states[i], steps[i]) && states[i + 1] == Do(states[i], steps[i]);
    InvAlways(disablePing, states, steps, i);
    Verdicts.StreamVerdict(states[i].hist.input);
    hide Execution, Inv, Framing.SplitAll, ReadOn, OpenUp, Verdicts.Breaks;
    ResumeVerdict(states[i]);
  }

  lemma ResumeVerdict(s: State)
    requires Inv(s) && s.ctl.pc == Cleaned(FromRead)
    ensures ReadOn(OpenUp(s)).link.status == if Framing.SplitAll(s.hist.input).bad then Disconnected else Connected
  {
    hide Inv, CoreOk, OpenUp, ReadOn, Exact, Framing.SplitAll;
    OpenUpInv(s);
    OpenUpInbuf(s);
    var t := Goto(OpenUp(s), Deliver);
    InvCore(t);
    CoreTimer(t, OpenUp(s), Away(t));
    ReadOnVerdict(OpenUp(s), Away(t));
    InputVerdict(s);
  }

  lemma InputVerdict(s: State)
    requires Inv(s)
    ensures Framing.SplitAll(s.hist.input).bad == Framing.SplitAll(s.link.inbuf).bad
  {
    hide PoolOk, PrintsOk, InSendOrder, WireOk, PastOk, TraceOk, BatchOk, RepliesOk, DeliveredOk, Alive, Framing.SplitAll;
  }

  lemma UpStatus(s: State)
    requires Inv(s) && s.ctl.pc == Quiet && s.link.io == Up
    ensures s.link.status != Disconnected
  {
    hide CoreOk, DeliveredOk, PingOk, FirstOk, LogMatches, CtlOk;
  }
}
