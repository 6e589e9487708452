/** The pointer to the ping: where the handler looks at it, it is never one left
    over from an earlier connection. */
module CurrentPing {
  import opened Bytes
  import opened Pool
  import opened Engine
  import opened Core
  import opened CoreMoves
  import opened Effects
  import opened Invariant
  import opened Steps
  import opened HandlerSteps
  import opened PingSteps
  import opened Progress
  import opened Runs
  import opened Shutdown
  import opened Intake

  /** Past the connected event there is a ping pointer only while the connection is
      not yet usable. */
  predicate NoOldPing(l: Link) {
    l.io == Up && l.pingTxn.Some? ==> l.status == Connecting
  }

  lemma FailNoPing(s: State, isError: bool, away: set<Handle>)
    requires CoreOk(s, away)
    ensures NoOldPing(ConnFail(s, isError).link)
  {
    hide CoreOk, ConnFail, LossReport, Marks, Forsaken;
    ConnFailIs(s, isError, away);
  }

  lemma ReadOnNoPing(s: State, away: set<Handle>)
    requires CoreOk(s, away) && NoOldPing(s.link)
    requires s.link.pingTxn.Some? && s.link.pingTxn.value in s.pool.txns ==> s.pool.txns[s.link.pingTxn.value].ping
    ensures NoOldPing(ReadOn(s).link)
  {
    hide CoreOk, ReadLoop, ConnFail, Without;
    ReadLoopLink(s);
    CoreReadLoop(s, away);
    var (r, end) := ReadLoop(s);
    var u := if r.pool.pending == [] then ResetTimer(r) else r;
    CoreTimer(r, u, away);
    if end == Failed { FailNoPing(u, true, away); }
  }

  lemma OnReadNoPing(s: State, b: seq<byte>)
    requires Inv(s) && s.ctl.pc == Quiet && s.link.io == Up && NoOldPing(s.link)
    ensures NoOldPing(ReadOn(Append(Enter(s), b)).link)
  {
    hide CoreOk, ReadOn, Append, Alive, DeliveredOk, Exact;
    AppendInv(s, b);
    AppendKeeps(s, b);
    var t := Append(Enter(s), b);
    PingPointer(t);
    ReadOnNoPing(t, {});
  }

  lemma ResumeNoPing(s: State)
    requires Inv(s) && s.ctl.pc.Cleaned?
    ensures NoOldPing(DoResume(s).link)
  {
    hide Inv, CoreOk, OpenUp, ReadOn, ConnFail;
    match s.ctl.pc.k
    case FromConnected => OpenUpInv(s) by { hide Exact; }
    case FromRead =>
      OpenUpInv(s) by { hide Exact; }
      var t := Goto(OpenUp(s), Deliver);
      InvCore(t);
      CoreTimer(t, OpenUp(s), Away(t));
      ReadOnNoPing(OpenUp(s), Away(t));
    case FromTimeout =>
      InvCore(s);
      var t := s.(link := s.link.(pingTxn := None));
      CoreTimer(s, t, Away(s));
      FailNoPing(t, true, Away(s));
  }

  lemma SendNoPing(s: State, h: Handle)
    requires Inv(s) && Enabled(s, Step.Send(h)) && NoOldPing(s.link)
    ensures NoOldPing(Do(s, Step.Send(h)).link)
  {
    hide Inv, CoreOk, SendMessages, Move;
    InvCore(s);
    if Sendable(s.pool.txns[h]) {
      CoreMovesReady(s, h);
      SendKeeps(MakeReady(s, h), Away(s));
      SendIo(MakeReady(s, h), Away(s));
    }
  }

  lemma SendIo(s: State, away: set<Handle>)
    requires CoreOk(s, away)
    ensures SendMessages(s).link.io == s.link.io
  {
    hide CoreOk, PromoteAll, PrintsOf, Stream;
    PromoteAllIs(s, away);
  }

  lemma ConnectingWhileOpening(s: State)
    requires Inv(s) && s.ctl.pc == Quiet && s.link.io == Opening
    ensures s.link.status == Connecting
  {
    hide CoreOk, DeliveredOk, PingOk, FirstOk, LogMatches, CtlOk;
  }

  lemma ConnectedNoPing(s: State, id: nat, n: nat)
    requires Inv(s) && Enabled(s, OnConnected(id, n))
    ensures NoOldPing(Do(s, OnConnected(id, n)).link)
  {
    hide Inv, FreeId, PingPrinted, DoOnConnected;
    ConnectingWhileOpening(s);
    ConnectedStatus(s, id, n);
  }

  lemma PointerStep(s: State, a: Step)
    requires Inv(s) && Enabled(s, a) && NoOldPing(s.link)
    ensures NoOldPing(Do(s, a).link)
  {
    hide Inv, CoreOk, ReadOn, Append, ConnFail, DrainAll, Move, Erase, Defer, FreeAll, FreeId, PingPrinted, Add,
         DoSend, DoResume, Without, DoOnConnected;
    match a
    case Send(h) => SendNoPing(s, h);
    case ResumeHandler => ResumeNoPing(s);
    case OnConnected(id, n) => ConnectedNoPing(s, id, n);
    case OnRead(input) =>
      if input.Some? { OnReadNoPing(s, input.value); }
    case OnLinkLost(isError) =>
      Entered(s) by { hide Exact; }
      FailNoPing(Enter(s), isError, {});
    case DrainDeferred => DrainKeepsLink(s);
    case _ =>
  }

  lemma {:induction false} NoOldPingAlways(disablePing: bool, states: seq<State>, steps: seq<Step>, i: nat)
    requires Execution(disablePing, states, steps) && i < |states|
    ensures NoOldPing(states[i].link)
  {
    hide Inv, Do, Enabled, NoOldPing;
    if i == 0 {
      NoneAtFirst(disablePing);
    } else {
      NoOldPingAlways(disablePing, states, steps, i - 1);
      InvAlways(disablePing, states, steps, i - 1);
      assert Enabled(states[i - 1], steps[i - 1]);
      PointerStep(states[i - 1], steps[i - 1]);
    }
  }

  lemma NoneAtFirst(disablePing: bool)
    ensures NoOldPing(Init(disablePing).link)
  {
  }

  /** In every state of every run, between the connected event and the end of the
      connection: the ping pointer is empty, or the connection is not yet usable and it
      is that of the ping printed first on this very connection. */
  lemma PointerIsCurrent(disablePing: bool, states: seq<State>, steps: seq<Step>, i: nat)
    requires Execution(disablePing, states, steps) && i < |states| && states[i].link.io == Up
    ensures var l, h := states[i].link, states[i].hist;
            && (l.status != Connecting ==> l.pingTxn == None)
            && (l.pingTxn.Some? ==> h.mark < |h.printed| && h.printed[h.mark].ping && l.pingTxn == Some(h.printed[h.mark].trans))
  {
    hide Execution, Inv;
    NoOldPingAlways(disablePing, states, steps, i);
    InvAlways(disablePing, states, steps, i);
    FirstIsPing(disablePing, states, steps, i);
  }

  /** A destroyed connection has no I/O object. */
  lemma NotUpWhenGone(disablePing: bool, states: seq<State>, steps: seq<Step>, i: nat)
    requires Execution(disablePing, states, steps) && i < |states| && states[i].ctl.pc == Gone
    ensures states[i].link.io == NoIo
  {
    hide Inv, Do, Enabled;
    if i > 0 {
      InvAlways(disablePing, states, steps, i - 1);
      assert Enabled(states[i - 1], steps[i - 1]);
      GoneNoIo(states[i - 1], steps[i - 1]);
    }
  }

  lemma GoneNoIo(s: State, a: Step)
    requires Inv(s) && Enabled(s, a) && Do(s, a).ctl.pc == Gone
    ensures Do(s, a).link.io == NoIo
  {
    GoneOnlyBy(s, a);
    NotGone(s, a);
    hide Inv, FreeAll;
  }

  lemma FirstIsPing(disablePing: bool, states: seq<State>, steps: seq<Step>, i: nat)
    requires Execution(disablePing, states, steps) && i < |states| && states[i].link.io == Up
    ensures var l, h := states[i].link, states[i].hist;
            l.status == Connecting && l.pingTxn.Some? ==>
              h.mark < |h.printed| && h.printed[h.mark].ping && l.pingTxn == Some(h.printed[h.mark].trans)
  {
    InvAlways(disablePing, states, steps, i);
    if states[i].ctl.pc == Gone { NotUpWhenGone(disablePing, states, steps, i); }
    hide Execution, CoreOk, DeliveredOk, Coupled, LogMatches, CtlOk, Replied, PingIs, NoPings;
  }
}
