/** The idle timer of a connected connection: exactly when it runs. */
module Idle {
  import opened Bytes
  import opened Pool
  import opened Engine
  import opened Core
  import opened Effects
  import opened Invariant
  import opened Steps
  import opened HandlerSteps
  import opened PingSteps
  import opened Progress
  import opened Runs
  import opened Shutdown
  import opened Calls
  import Intake
  import Losses
  import Readings
  import Framing

  /** Bytes were read, a transaction was deleted for good, or the timeout was set: what
      starts the idle timer anew, if nothing is pending afterwards. */
  predicate Stirs(s: State, a: Step) {
    match a
    case OnRead(input) => input.Some?
    case ResumeHandler => s.ctl.pc == Cleaned(FromRead)
    case Delete(_) => !s.ctl.inUse
    case DrainDeferred => s.pool.delayRm != []
    case SetIdleTimeout(_) => true
    case _ => false
  }

  /** What becomes of the timer by a step from `s` to a connected connection `r`. */
  function Next(s: State, a: Step, r: State): Timer {
    if r.link.idleTimeout == 0 then NoTimer
    else if r.pool.pending != [] then Stopped
    else if Stirs(s, a) then Running
    else if s.link.status == Connected then s.link.timer
    else Stopped
  }

  // ----- step by step -----

  lemma Exists(s: State)
    requires Inv(s) && s.ctl.pc != Gone && s.link.status == Connected
    ensures s.link.timer != NoTimer <==> s.link.idleTimeout != 0
    ensures s.link.timer == Running ==> s.pool.pending == []
  {
    hide CoreOk, DeliveredOk, PingOk, FirstOk, LogMatches, CtlOk;
  }

  /** Reading from `t` on, if the connection survives it. */
  lemma ReadRestarts(t: State, away: set<Handle>)
    requires CoreOk(t, away) && PingSettled(t) && ReadOn(t).link.status == Connected
    requires t.link.pingTxn.Some? && t.link.pingTxn.value in t.pool.txns ==> t.pool.txns[t.link.pingTxn.value].ping
    ensures ReadOn(t).pool.pending == [] && ReadOn(t).link.timer != NoTimer ==> ReadOn(t).link.timer == Running
  {
    hide CoreOk, ReadLoop, ConnFail, PingSettled, DispatchAll, Framing.SplitAll, Leftover, LastMark;
    ReadLoopIsFold(t);
    CoreReadLoop(t, away);
    var (r, end) := ReadLoop(t);
    var u := if r.pool.pending == [] then ResetTimer(r) else r;
    CoreTimer(r, u, away);
    ConnFailEnds(u, true, away);
  }

  lemma OnReadRestarts(s: State, b: seq<byte>)
    requires Inv(s) && s.ctl.pc == Quiet && s.link.io == Up
    requires ReadOn(Append(Enter(s), b)).link.status == Connected
    ensures var r := ReadOn(Append(Enter(s), b)); r.pool.pending == [] && r.link.timer != NoTimer ==> r.link.timer == Running
  {
    hide Inv, CoreOk, ReadOn, Append, Exact, PingSettled, Framing.SplitAll;
    Intake.ReadVerdictIs(s, b);
    AppendInv(s, b);
    PingPointer(Append(Enter(s), b));
    ReadRestarts(Append(Enter(s), b), {});
  }

  /** At every read on a usable connection that survives it, also on one that is being
      closed: the timer, if there is one, starts anew when nothing is pending, and is left
      alone when something is. */
  lemma ReadTimerMeans(disablePing: bool, states: seq<State>, steps: seq<Step>, i: nat, b: seq<byte>)
    requires Execution(disablePing, states, steps) && i < |steps| && steps[i] == OnRead(Some(b))
    requires states[i].link.status != Connecting && states[i + 1].link.status != Disconnected
    ensures states[i + 1].link.timer
            == if states[i + 1].pool.pending == [] && states[i].link.timer != NoTimer then Running else states[i].link.timer
  {
    hide Do, Enabled, Inv, ReadOn, Append, Enter, PingSettled;
    assert Enabled(states[i], steps[i]) && states[i + 1] == Do(states[i], steps[i]);
    InvAlways(disablePing, states, steps, i);
    Readings.ReadIs(states[i], b);
    AppendInv(states[i], b);
    AppendKeeps(states[i], b);
    PingPointer(Append(Enter(states[i]), b));
    ReadTimer(Append(Enter(states[i]), b), {});
  }

  lemma ReadTimer(t: State, away: set<Handle>)
    requires CoreOk(t, away) && PingSettled(t) && ReadOn(t).link.status != Disconnected
    requires t.link.pingTxn.Some? && t.link.pingTxn.value in t.pool.txns ==> t.pool.txns[t.link.pingTxn.value].ping
    ensures ReadOn(t).link.timer == if ReadOn(t).pool.pending == [] && t.link.timer != NoTimer then Running else t.link.timer
  {
    hide CoreOk, ReadLoop, ConnFail, PingSettled, DispatchAll, Framing.SplitAll, Leftover, LastMark;
    ReadLoopIsFold(t);
    DispatchAllFrame(t, Framing.SplitAll(t.link.inbuf).msgs, t.link.inbuf, t.hist.frames);
    CoreReadLoop(t, away);
    var (r, end) := ReadLoop(t);
    var u := if r.pool.pending == [] then ResetTimer(r) else r;
    CoreTimer(r, u, away);
    ConnFailEnds(u, true, away);
  }

  lemma OpenUpTimer(s: State)
    requires Inv(s) && s.ctl.pc.Cleaned? && OpenUp(s).link.idleTimeout != 0
    ensures OpenUp(s).link.timer == Stopped
  {
    hide Inv, SendMessages;
  }

  lemma ResumeRestarts(s: State)
    requires Inv(s) && s.ctl.pc.Cleaned? && DoResume(s).link.status == Connected
    requires DoResume(s).pool.pending == [] && DoResume(s).link.timer != NoTimer && DoResume(s).link.idleTimeout != 0
    ensures DoResume(s).link.timer == if s.ctl.pc.k == FromRead then Running else Stopped
  {
    hide Inv, CoreOk, OpenUp, ReadOn, ConnFail, LastMark;
    match s.ctl.pc.k
    case FromConnected => OpenUpTimer(s);
    case FromRead =>
      OpenUpInv(s) by { hide Exact; }
      var t := Goto(OpenUp(s), Deliver);
      InvCore(t);
      CoreTimer(t, OpenUp(s), Away(t));
      ReadRestarts(OpenUp(s), Away(t));
    case FromTimeout =>
      InvCore(s);
      var t := s.(link := s.link.(pingTxn := None));
      CoreTimer(s, t, Away(s));
      ConnFailEnds(t, true, Away(s));
  }

  lemma DeleteRestarts(s: State, h: Handle)
    requires h in s.pool.txns
    ensures var r := DoDelete(s, h);
            r.link.timer == if !s.ctl.inUse && s.link.status == Connected && r.pool.pending == [] && s.link.timer != NoTimer then Running
                            else s.link.timer
  {
    hide Without;
  }

  lemma {:induction false} DrainRestarts(s: State)
    requires Draining(s) && s.link.status == Connected && s.link.timer != NoTimer
    ensures DrainAll(s).link.timer
            == if s.pool.delayRm != [] && DrainAll(s).pool.pending == [] then Running else s.link.timer
    ensures s.pool.pending == [] ==> DrainAll(s).pool.pending == []
    decreases |s.pool.delayRm|
  {
    hide Draining, DrainHead;
    if s.pool.delayRm != [] {
      DrainOne(s);
      var r := DeleteNow(s, DrainHead(s.pool));
      DrainRestarts(r);
      if s.pool.pending == [] { DrainHeadPending(s.pool); }
    }
  }

  lemma DrainHeadPending(p: Pool)
    requires p.delayRm != [] && p.delayRm[0] in p.txns && p.pending == []
    ensures DrainHead(p).pending == []
  {
  }

  lemma DrainStep(s: State)
    requires Inv(s) && Enabled(s, DrainDeferred) && s.link.status == Connected && s.link.timer != NoTimer
    ensures var r := Do(s, DrainDeferred);
            r.link.timer == if s.pool.delayRm != [] && r.pool.pending == [] then Running else s.link.timer
  {
    hide Inv, DrainAll;
    DrainingIn(s);
    DrainRestarts(s);
  }

  lemma SentTimer(s: State, h: Handle, r: State)
    requires h in s.pool.txns && (if CanBeSent(s, h) then SentTo(s, h, r) else r == s)
    ensures r.link.status == s.link.status
    ensures r.link.status == Connected && r.pool.pending == [] ==> r.link.timer == s.link.timer
  {
  }

  /** Which steps can make a connection connected. */
  lemma BecomesConnected(s: State, a: Step)
    requires Inv(s) && Enabled(s, a) && Do(s, a).link.status == Connected && a != ResumeHandler
    ensures s.link.status == Connected
  {
    hide Inv, CoreOk, ReadOn, Append, ConnFail, DrainAll, Move, Erase, Defer, FreeAll, FreeId, PingPrinted, Add, DoSend,
         DoOnConnected;
    match a
    case Send(h) => Losses.SendStatus(s, h);
    case OnConnected(id, n) => ConnectedStatus(s, id, n);
    case OnLinkLost(isError) => LostIsDown(s, isError);
    case OnRead(input) =>
      if input.Some? { Intake.ReadVerdictIs(s, input.value) by { hide Framing.SplitAll; } }
    case DrainDeferred => DrainKeepsLink(s);
    case _ =>
  }

  lemma QuietSteps(s: State, a: Step)
    requires Inv(s) && Enabled(s, a) && !Stirs(s, a) && s.link.status == Connected
    requires Do(s, a).link.status == Connected && Do(s, a).ctl.pc != Gone
    requires a != ResumeHandler && !a.OnConnected? && !a.OnLinkLost? && !a.Send? && !a.Delete? && a != DrainDeferred
    ensures Do(s, a).link.timer == s.link.timer
  {
    hide Inv, Do, Enabled;
    NotGone(s, a);
    Exists(s);
    if a == OnConnTimer { FiresIdle(s); } else { QuietRest(s, a); }
  }

  lemma FiresIdle(s: State)
    requires Enabled(s, OnConnTimer) && s.link.status == Connected && (s.link.timer == Running ==> s.pool.pending == [])
    ensures Do(s, OnConnTimer).link.status == IdleTimeout
  {
    hide Without;
  }

  lemma QuietRest(s: State, a: Step)
    requires Enabled(s, a) && !Stirs(s, a) && s.link.status == Connected && a != OnConnTimer && Do(s, a).ctl.pc != Gone
    requires a != ResumeHandler && !a.OnConnected? && !a.OnLinkLost? && !a.Send? && !a.Delete? && a != DrainDeferred
    requires Do(s, a).link.status == Connected
    ensures Do(s, a).link.timer == s.link.timer
  {
    hide FreeAll, FreeId, PingPrinted, Edit, Add, Defer, KillTimer;
  }

  lemma StaysUp(s: State, a: Step)
    requires Inv(s) && Enabled(s, a) && s.link.status == Connected
    ensures !a.OnConnected? && a != ResumeHandler
    ensures a.OnLinkLost? ==> Do(s, a).link.status == Disconnected
  {
    hide CoreOk, DeliveredOk, PingOk, FirstOk, LogMatches, CtlOk, ConnFail, FreeId, PingPrinted, DoOnConnected, DoResume;
    NotGone(s, a);
    if a.OnLinkLost? { LostIsDown(s, a.isError); }
  }

  lemma NoSend(s: State, a: Step)
    requires Inv(s) && Enabled(s, a) && !Stirs(s, a) && s.link.status == Connected
    requires Do(s, a).link.status == Connected && Do(s, a).pool.pending == [] && Do(s, a).ctl.pc != Gone
    ensures Do(s, a).link.timer == s.link.timer
  {
    hide Inv, Do, Enabled, Stirs;
    StaysUp(s, a);
    if a.Send? || a.Delete? || a == DrainDeferred {
      TxnSteps(s, a);
    } else {
      QuietSteps(s, a);
    }
  }

  lemma TxnSteps(s: State, a: Step)
    requires Inv(s) && Enabled(s, a) && !Stirs(s, a) && s.link.status == Connected
    requires a.Send? || a.Delete? || a == DrainDeferred
    requires Do(s, a).link.status == Connected && Do(s, a).pool.pending == []
    ensures Do(s, a).link.timer == s.link.timer
  {
    hide Inv, DoSend, DoDelete, SentTo, DrainAll;
    match a
    case Send(h) =>
      SendDoes(s, h);
      SentTimer(s, h, DoSend(s, h));
    case Delete(h) => DeleteRestarts(s, h);
    case DrainDeferred => NothingDeferred(s);
    case _ =>
  }

  lemma NothingDeferred(s: State)
    requires s.pool.delayRm == []
    ensures DrainAll(s) == s
  {
  }

  lemma Stirring(s: State, a: Step)
    requires Inv(s) && Enabled(s, a) && Stirs(s, a) && Do(s, a).ctl.pc != Gone
    requires Do(s, a).link.status == Connected && Do(s, a).pool.pending == [] && Do(s, a).link.idleTimeout != 0
    requires Do(s, a).link.timer != NoTimer
    ensures Do(s, a).link.timer == Running
  {
    hide Inv, DoDelete, DoResume, ReadOn, Append, DoDrain;
    if a != ResumeHandler { BecomesConnected(s, a); }
    NotGone(s, a);
    match a
    case OnRead(input) => OnReadRestarts(s, input.value);
    case ResumeHandler => ResumeRestarts(s);
    case Delete(h) => DeleteRestarts(s, h);
    case DrainDeferred => DrainStirs(s);
    case SetIdleTimeout(_) =>
  }

  lemma DrainStirs(s: State)
    requires Inv(s) && Enabled(s, DrainDeferred) && s.pool.delayRm != [] && s.link.status == Connected && s.ctl.pc != Gone
    requires Do(s, DrainDeferred).pool.pending == [] && Do(s, DrainDeferred).link.timer != NoTimer
    ensures Do(s, DrainDeferred).link.timer == Running
  {
    DrainLink(s);
    Exists(s);
    hide Inv, Do;
    DrainStep(s);
  }

  lemma DrainLink(s: State)
    requires Enabled(s, DrainDeferred)
    ensures s.link.timer == NoTimer ==> Do(s, DrainDeferred).link.timer == NoTimer
  {
    hide DrainAll;
    DrainNoTimer(s);
  }

  lemma {:induction false} DrainNoTimer(s: State)
    ensures s.link.timer == NoTimer ==> DrainAll(s).link.timer == NoTimer
    decreases |s.pool.delayRm|
  {
    hide DrainHead;
    if s.pool.delayRm != [] && s.pool.delayRm[0] in s.pool.txns {
      DrainHeadShorter(s.pool);
      DrainNoTimer(DeleteNow(s, DrainHead(s.pool)));
    }
  }

  lemma TimerStep(s: State, a: Step)
    requires Inv(s) && Enabled(s, a) && Do(s, a).ctl.pc != Gone && Do(s, a).link.status == Connected
    ensures Do(s, a).link.timer == Next(s, a, Do(s, a))
  {
    hide Inv, Do, Enabled, Stirs;
    var r := Do(s, a);
    StepKeepsInv(s, a);
    Exists(r);
    if r.link.idleTimeout != 0 && r.pool.pending == [] {
      if Stirs(s, a) {
        Stirring(s, a);
      } else if s.link.status == Connected {
        NoSend(s, a);
      } else {
        NowConnected(s, a);
      }
    }
  }

  lemma NowConnected(s: State, a: Step)
    requires Inv(s) && Enabled(s, a) && !Stirs(s, a) && s.link.status != Connected && Do(s, a).link.status == Connected
    requires Do(s, a).pool.pending == [] && Do(s, a).link.timer != NoTimer && Do(s, a).link.idleTimeout != 0
    ensures Do(s, a).link.timer == Stopped
  {
    hide Inv, DoResume;
    if a != ResumeHandler { BecomesConnected(s, a) by { hide Do, Enabled; } }
    ResumeRestarts(s);
  }

  // ----- over runs -----

  /** Connected, with an idle timeout, and nothing pending. */
  predicate Idling(s: State) {
    s.link.status == Connected && s.link.idleTimeout != 0 && s.pool.pending == []
  }

  /** Something stirred the connection before state `n`, and it has idled since. */
  predicate IdleSince(states: seq<State>, steps: seq<Step>, n: nat)
    requires n <= |steps| < |states|
  {
    exists k :: 0 <= k < n && Stirs(states[k], steps[k]) && forall m :: k < m <= n ==> Idling(states[m])
  }

  lemma IdleMore(states: seq<State>, steps: seq<Step>, n: nat)
    requires n < |steps| < |states|
    ensures IdleSince(states, steps, n + 1) <==>
              Idling(states[n + 1]) && (Stirs(states[n], steps[n]) || IdleSince(states, steps, n))
  {
    hide Stirs, Idling;
    if IdleSince(states, steps, n + 1) {
      var k :| 0 <= k < n + 1 && Stirs(states[k], steps[k]) && forall m :: k < m <= n + 1 ==> Idling(states[m]);
      assert k < n ==> IdleSince(states, steps, n);
    }
    if Idling(states[n + 1]) && IdleSince(states, steps, n) {
      var k :| 0 <= k < n && Stirs(states[k], steps[k]) && forall m :: k < m <= n ==> Idling(states[m]);
      assert forall m :: k < m <= n + 1 ==> Idling(states[m]);
    }
    if Idling(states[n + 1]) && Stirs(states[n], steps[n]) {
      assert forall m :: n < m <= n + 1 ==> Idling(states[m]);
    }
  }

  /** In every state of every run, on a connected connection: the idle timer runs if and
      only if bytes were read, a transaction was deleted, or the idle timeout was set,
      and ever since the connection has been connected with a timeout set and nothing
      pending. It is stopped if it does not run but a timeout is set, and does not exist
      if none is. */
  lemma {:induction false} IdleTimerIff(disablePing: bool, states: seq<State>, steps: seq<Step>, n: nat)
    requires Execution(disablePing, states, steps) && n < |states|
    requires states[n].ctl.pc != Gone && states[n].link.status == Connected
    ensures states[n].link.timer == if IdleSince(states, steps, n) then Running
                                    else if states[n].link.idleTimeout != 0 then Stopped else NoTimer
  {
    hide Inv, Do, Enabled, Stirs, IdleSince;
    if n > 0 {
      var s, a := states[n - 1], steps[n - 1];
      InvAlways(disablePing, states, steps, n - 1);
      InvAlways(disablePing, states, steps, n);
      assert Enabled(s, a);
      NotGone(s, a);
      Exists(states[n]);
      TimerStep(s, a);
      IdleMore(states, steps, n - 1);
      if s.link.status == Connected {
        IdleTimerIff(disablePing, states, steps, n - 1);
        Exists(s);
        if IdleSince(states, steps, n - 1) { EndsIdling(states, steps, n - 1); }
      } else if IdleSince(states, steps, n - 1) {
        EndsIdling(states, steps, n - 1);
      }
    }
  }

  lemma EndsIdling(states: seq<State>, steps: seq<Step>, n: nat)
    requires n <= |steps| < |states| && IdleSince(states, steps, n)
    ensures Idling(states[n])
  {
  }
}
