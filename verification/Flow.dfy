/** The way of the event handler: it always can go on, always comes to its end, and
    ends a connection whose ping was not answered in time. */
module Flow {
  import opened Bytes
  import opened Pool
  import opened Engine
  import opened Core
  import opened Invariant
  import opened Steps
  import opened HandlerSteps
  import opened PingSteps
  import opened Progress
  import opened Runs
  import opened Shutdown
  import opened PingWindow

  /** The handler going on, as opposed to being entered or to calls that fall between. */
  predicate GoesOn(a: Step) {
    a in {DeletePing, ResumeHandler, TakeEvent, CheckDestroy, DrainDeferred, Finish} || a.Reconnect?
  }

  /** How far the handler has still to go, first by place, then by events. */
  function Place(pc: Pc): nat {
    match pc
    case Cleanup(_) => 5
    case Cleaned(_) => 4
    case Deliver => 3
    case Callback => 3
    case Leave(_) => 2
    case Last => 1
    case Quiet => 0
    case Gone => 0
  }

  function EventsLeft(c: Control): nat {
    2 * |c.batch| + if c.pc == Callback then 1 else 0
  }

  predicate Nearer(c: Control, d: Control) {
    Place(d.pc) < Place(c.pc) || (Place(d.pc) == Place(c.pc) && EventsLeft(d) < EventsLeft(c))
  }

  lemma ResumeDelivers(s: State)
    requires Inv(s) && s.ctl.pc.Cleaned?
    ensures DoResume(s).ctl.pc == Deliver
  {
    hide Inv, CoreOk, OpenUp, ReadOn, ConnFail, Exact;
    match s.ctl.pc.k
    case FromRead =>
      OpenUpInv(s);
      ReadOnLeaves(OpenUp(s));
    case _ =>
  }

  /** Each step of the handler brings it nearer to its end. */
  lemma HandlerNears(s: State, a: Step)
    requires Inv(s) && Enabled(s, a) && GoesOn(a)
    ensures Nearer(s.ctl, Do(s, a).ctl)
  {
    hide Inv, DoResume, DrainAll, Demolish, Defer;
    match a
    case ResumeHandler => ResumeDelivers(s);
    case Reconnect(_) => ReconnectLast(s, a);
    case Finish => FinishedAt(s);
    case _ =>
  }

  lemma FinishedAt(s: State)
    ensures DoFinish(s).ctl.pc == if s.ctl.destroy then Gone else Quiet
    ensures !s.ctl.destroy ==> DoFinish(s) == s.(ctl := s.ctl.(pc := Quiet))
  {
  }

  lemma ReconnectLast(s: State, a: Step)
    requires Enabled(s, a) && a.Reconnect?
    ensures s.ctl.pc.Leave? && Do(s, a).ctl.pc == Last
  {
  }

  /** No call takes it further away, or puts it on another way. */
  lemma CallsKeepPlace(s: State, a: Step)
    requires Inv(s) && Enabled(s, a) && IsCall(a)
    ensures Do(s, a).ctl.batch == s.ctl.batch
    ensures Do(s, a).ctl.pc == if a == Destroy && !s.ctl.inUse then Gone else s.ctl.pc
  {
    hide Inv, DoSend, DoDelete, FreeAll, FreeId;
    match a
    case Send(h) => SendMoves(s, h, h);
    case Delete(h) => DeleteMoves(s, h);
    case _ =>
  }

  /** Wherever the handler stands, there is a next thing for it. */
  lemma SomethingIsNext(s: State)
    requires Inv(s) && s.ctl.pc != Quiet && s.ctl.pc != Gone
    ensures exists a :: GoesOn(a) && Enabled(s, a)
  {
    hide Inv, PingPrinted, FreeId;
    var a := match s.ctl.pc
      case Cleanup(_) => DeletePing
      case Cleaned(_) => ResumeHandler
      case Deliver => if s.ctl.batch == [] then DrainDeferred else TakeEvent
      case Callback => CheckDestroy
      case Leave(_) => Step.Reconnect(false)
      case _ => Finish;
    assert GoesOn(a) && Enabled(s, a);
  }

  lemma NotEntered(s: State, a: Step)
    requires Enabled(s, a) && s.ctl.pc != Quiet
    ensures GoesOn(a) || IsCall(a)
  {
    hide PingPrinted, FreeId;
  }

  // ----- over runs -----

  /** In every run, between being entered and its end: the handler can go on, nothing
      enters it again, each of its own steps brings it nearer to the end, and calls do
      not take it away from there, but that a connection not in use may be destroyed. */
  lemma HandlerComesToEnd(disablePing: bool, states: seq<State>, steps: seq<Step>, i: nat)
    requires Execution(disablePing, states, steps) && i < |steps|
    requires states[i].ctl.pc != Quiet && states[i].ctl.pc != Gone
    ensures exists a :: GoesOn(a) && Enabled(states[i], a)
    ensures GoesOn(steps[i]) || IsCall(steps[i])
    ensures if GoesOn(steps[i]) then Nearer(states[i].ctl, states[i + 1].ctl)
            else states[i + 1].ctl.pc == (if steps[i] == Destroy && !states[i].ctl.inUse then Gone else states[i].ctl.pc)
                 && states[i + 1].ctl.batch == states[i].ctl.batch
  {
    assert Enabled(states[i], steps[i]) && states[i + 1] == Do(states[i], steps[i]);
    InvAlways(disablePing, states, steps, i);
    hide Execution, Inv, Do, Enabled, Nearer;
    SomethingIsNext(states[i]);
    NotEntered(states[i], steps[i]);
    if GoesOn(steps[i]) { HandlerNears(states[i], steps[i]); } else { CallsKeepPlace(states[i], steps[i]); }
  }

  /** It ends at rest, unless the connection was to be destroyed. */
  lemma FinishMeans(disablePing: bool, states: seq<State>, steps: seq<Step>, i: nat)
    requires Execution(disablePing, states, steps) && i < |steps| && steps[i] == Finish
    ensures states[i + 1].ctl.pc == if states[i].ctl.destroy then Gone else Quiet
    ensures !states[i].ctl.destroy ==> states[i + 1] == states[i].(ctl := states[i].ctl.(pc := Quiet))
    ensures states[i].ctl.destroy ==> forall h :: h in states[i].pool.txns ==> h in states[i + 1].pool.freed
  {
    hide Inv, Do, Enabled, HistAdvances, Later, DoFinish;
    assert Enabled(states[i], steps[i]) && states[i + 1] == Do(states[i], steps[i]);
    InvAlways(disablePing, states, steps, i + 1);
    AdvancesAlways(disablePing, states, steps, i, i + 1);
    FinishIs(states[i]);
    FinishedAt(states[i]);
    if states[i].ctl.destroy { NothingIsLeft(states[i + 1]); }
  }

  lemma FinishIs(s: State)
    requires Enabled(s, Finish)
    ensures Do(s, Finish) == DoFinish(s)
  {
    hide DoFinish;
  }

  lemma NothingIsLeft(s: State)
    requires Inv(s) && s.ctl.pc == Gone
    ensures s.pool.txns == map[]
  {
    hide CoreOk, DeliveredOk, Alive;
  }

  // ----- writing -----

  /** In every run, at every write: the first bytes of the output buffer leave, in order,
      and nothing else changes but that the handler has been entered. */
  lemma WriteMeans(disablePing: bool, states: seq<State>, steps: seq<Step>, i: nat, n: nat)
    requires Execution(disablePing, states, steps) && i < |steps| && steps[i] == OnWrite(n)
    ensures var s, r := states[i], states[i + 1];
            && r.hist.wire + r.link.outbuf == s.hist.wire + s.link.outbuf && |r.hist.wire| == |s.hist.wire| + n
            && r.hist == s.hist.(wire := r.hist.wire) && r.link == s.link.(outbuf := r.link.outbuf) && r.pool == s.pool
            && r.ctl == s.ctl.(pc := Deliver, inUse := true)
  {
    assert Enabled(states[i], steps[i]) && states[i + 1] == Do(states[i], steps[i]);
    hide Execution;
    var s := states[i];
    assert s.hist.wire + s.link.outbuf[..n] + s.link.outbuf[n..] == s.hist.wire + s.link.outbuf;
  }

  // ----- the ping timeout -----

  /** The handler has yet to end the connection for want of a reply to the ping. */
  predicate TimingOut(s: State) {
    Cleaning(s.ctl.pc) && s.ctl.pc.k == FromTimeout
  }

  lemma TimeoutBegins(s: State)
    requires Inv(s) && Enabled(s, OnConnTimer) && s.link.status == Connecting
    ensures TimingOut(Do(s, OnConnTimer)) && Do(s, OnConnTimer).hist.log == s.hist.log
  {
    hide Inv, Without;
  }

  lemma TimeoutGoesOn(s: State, a: Step)
    requires Inv(s) && Enabled(s, a) && TimingOut(s) && a != ResumeHandler
    ensures TimingOut(Do(s, a))
  {
    WindowFacts(s);
    hide Inv, FreeId, PingPrinted;
    if IsCall(a) {
      hide Do, Enabled;
      CallsKeepPlace(s, a);
    }
  }

  lemma TimeoutEnds(s: State)
    requires Inv(s) && s.ctl.pc == Cleaned(FromTimeout)
    ensures DoResume(s).link.status == Disconnected
    ensures var log := DoResume(s).hist.log; log != [] && LastMark(log) == Queues(ConnError)
  {
    hide Inv, CoreOk, ConnFail, LastMark, OpenUp, ReadOn, FinalEvent;
    WindowFacts(s);
    InvCore(s);
    assert FinalEvent(s.link.status, true) == ConnError by { LostWhileTrying(); }
    var t := s.(link := s.link.(pingTxn := None));
    CoreTimer(s, t, Away(s));
    ConnFailEnds(t, true, Away(s));
  }

  lemma LostWhileTrying()
    ensures FinalEvent(Connecting, true) == ConnError
  {
  }

  lemma ResumeIs(s: State)
    requires Enabled(s, ResumeHandler) && TimingOut(s)
    ensures s.ctl.pc == Cleaned(FromTimeout) && Do(s, ResumeHandler) == DoResume(s)
  {
    hide DoResume;
  }

  lemma {:induction false} StaysTimingOut(disablePing: bool, states: seq<State>, steps: seq<Step>, i: nat, j: nat)
    requires Execution(disablePing, states, steps) && i <= j < |states| && TimingOut(states[i])
    requires forall k :: i <= k < j ==> steps[k] != ResumeHandler
    ensures TimingOut(states[j])
    decreases j
  {
    hide Inv, Do, Enabled, TimingOut;
    if i < j {
      StaysTimingOut(disablePing, states, steps, i, j - 1);
      InvAlways(disablePing, states, steps, j - 1);
      assert Enabled(states[j - 1], steps[j - 1]);
      TimeoutGoesOn(states[j - 1], steps[j - 1]);
    }
  }

  /** The connection timer firing before the ping was answered ends the connection: when
      the handler goes on, whatever calls fall between, it is down, and CONN_ERROR is
      reported last. */
  lemma PingTimeoutEndsConnection(disablePing: bool, states: seq<State>, steps: seq<Step>, i: nat, j: nat)
    requires Execution(disablePing, states, steps) && i < j < |steps|
    requires steps[i] == OnConnTimer && states[i].link.status == Connecting
    requires steps[j] == ResumeHandler && forall k :: i < k < j ==> steps[k] != ResumeHandler
    ensures states[j + 1].link.status == Disconnected
    ensures var log := states[j + 1].hist.log; log != [] && LastMark(log) == Queues(ConnError)
  {
    hide Inv, Do, Enabled, TimingOut, LastMark, DoResume;
    assert Enabled(states[i], steps[i]) && Enabled(states[j], steps[j]);
    InvAlways(disablePing, states, steps, i);
    InvAlways(disablePing, states, steps, j);
    TimeoutBegins(states[i]);
    StaysTimingOut(disablePing, states, steps, i + 1, j);
    ResumeIs(states[j]);
    TimeoutEnds(states[j]);
  }

  /** Firing on any other connection: a connected one begins the idle shutdown, and one
      that is disconnecting just loses its timer. */
  lemma OtherTimeout(disablePing: bool, states: seq<State>, steps: seq<Step>, i: nat)
    requires Execution(disablePing, states, steps) && i < |steps|
    requires steps[i] == OnConnTimer && states[i].link.status != Connecting
    ensures var s := states[i];
            && s.link.status in {Connected, Disconnecting}
            && states[i + 1] == s.(link := s.link.(timer := NoTimer, status := if s.link.status == Connected then IdleTimeout else Disconnecting),
                                   ctl := s.ctl.(pc := Deliver, inUse := true))
  {
    assert Enabled(states[i], steps[i]) && states[i + 1] == Do(states[i], steps[i]);
    InvAlways(disablePing, states, steps, i);
    hide Execution, CoreOk, DeliveredOk, PingOk, FirstOk, LogMatches, CtlOk, Without;
  }
}
