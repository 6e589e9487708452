/** What the engine does not prevent: when a callback follows a destroy request, and
    runs that show it, and that show timers left behind. */
module Hazards {
  import opened Bytes
  import opened Pool
  import opened Engine
  import opened Core
  import opened CoreMoves
  import opened Effects
  import opened Invariant
  import opened Steps
  import opened HandlerSteps
  import opened PingSteps
  import opened Progress
  import opened Runs
  import opened PingWindow
  import opened Timers
  import KeyValue
  import Framing

  // ----- a callback after a destroy request -----

  lemma LostWhileOpening(s: State)
    requires s.link.status == Connecting && s.pool.pending == [] && s.pool.ready == [] && s.ctl.batch == []
    ensures ConnFail(s, true).ctl == s.ctl.(batch := [ConnError])
  {
    assert [] + [ConnError] == [ConnError];
  }

  /** Destroying the connection from another thread, after the handler has queued
      an event and before it has taken it, does not stop that callback. */
  lemma CallbackAfterDestroy() returns (states: seq<State>, steps: seq<Step>)
    ensures Execution(false, states, steps)
    ensures exists i, j :: 0 <= i < j < |steps| && steps[i] == Destroy && steps[j] == TakeEvent
  {
    hide ConnFail;
    states, steps := [Init(false)], [];
    states, steps := Extend(false, states, steps, Connect(true));
    LostWhileOpening(Enter(states[1]));
    states, steps := Extend(false, states, steps, OnLinkLost(true));
    assert states[2].ctl.inUse && states[2].ctl.batch == [ConnError] && states[2].ctl.pc == Deliver;
    states, steps := Extend(false, states, steps, Destroy);
    assert states[3].ctl.batch == [ConnError] && states[3].ctl.pc == Deliver;
    states, steps := Extend(false, states, steps, TakeEvent);
    assert steps[2] == Destroy && steps[3] == TakeEvent;
  }

  /** Destroy is requested, and an event waits or will wait for its callback. */
  predicate Loud(s: State) {
    s.ctl.destroy && (Cleaning(s.ctl.pc) || (s.ctl.pc == Deliver && s.ctl.batch != []))
  }

  lemma {:induction false} ReadBatchGrows(s: State)
    ensures |ReadLoop(s).0.ctl.batch| >= |s.ctl.batch|
    decreases |s.link.inbuf|
  {
    hide Framing.NextFrame, BuildResponse, Report, Answer, ReadLoop;
    ReadLoopFlat(s);
    var n := Framing.NextFrame(s.link.inbuf);
    if n.Got? {
      var s1 := Consume(s, n.msg, n.rest);
      match PendingHolder(s.pool, n.msg.id)
      case None => ReadBatchGrows(s1);
      case Some(h) =>
        AnswerKeepsLink(s1, h, n.msg);
        AnswerReportFrame(s1, h, n.msg);
        ReportBatch(Answer(s1, h, n.msg), h);
        if s.link.pingTxn != Some(h) {
          ReadBatchGrows(Report(Answer(s1, h, n.msg), h));
        }
    }
  }

  lemma ReportBatch(s: State, h: Handle)
    requires h in s.pool.txns
    ensures Report(s, h).ctl.batch == s.ctl.batch + [TransDone(h)]
  {
  }

  lemma FailBatch(s: State, isError: bool, away: set<Handle>)
    requires CoreOk(s, away)
    ensures ConnFail(s, isError).ctl.batch != []
  {
    hide CoreOk, ConnFail, Forsaken, Marks, NoConnects, Errors, FinalEvent;
    ConnFailIs(s, isError, away);
  }

  lemma OpenUpBatch(s: State)
    requires Inv(s)
    ensures OpenUp(s).ctl == s.ctl.(batch := s.ctl.batch + [ConnConnected])
  {
    hide Inv, CoreOk, SendMessages;
    InvCore(s);
    var c := s.(link := s.link.(pingTxn := None, status := Connected));
    CoreTimer(s, c, Away(s));
    CoreEmit(c, ConnConnected, Away(s));
    SendKeeps(Emit(c, ConnConnected), Away(s));
  }

  lemma ReadOnBatch(s: State, away: set<Handle>)
    requires CoreOk(s, away) && s.link.pingTxn == None && s.ctl.batch != []
    ensures ReadOn(s).ctl.batch != [] && ReadOn(s).ctl.pc == Deliver
  {
    hide CoreOk, ReadLoop, ConnFail;
    ReadBatchGrows(s);
    ReadNoPing(s);
    CoreReadLoop(s, away);
    var (r, end) := ReadLoop(s);
    if end == Failed {
      var u := if r.pool.pending == [] then ResetTimer(r) else r;
      CoreTimer(r, u, away);
      FailBatch(u, true, away);
    }
  }

  /** Going on after the ping always leaves an event to deliver. */
  lemma ResumeLeavesEvent(s: State)
    requires Inv(s) && s.ctl.pc.Cleaned?
    ensures DoResume(s).ctl.pc == Deliver && DoResume(s).ctl.batch != []
  {
    hide Inv, CoreOk, OpenUp, ReadOn, ConnFail;
    match s.ctl.pc.k
    case FromConnected => OpenUpBatch(s);
    case FromRead =>
      OpenUpBatch(s);
      OpenUpInv(s) by { hide Exact; }
      var t := Goto(OpenUp(s), Deliver);
      InvCore(t);
      CoreTimer(t, OpenUp(s), Away(t));
      ReadOnBatch(OpenUp(s), Away(t));
    case FromTimeout =>
      InvCore(s);
      var t := s.(link := s.link.(pingTxn := None));
      CoreTimer(s, t, Away(s));
      FailBatch(t, true, Away(s));
  }

  /** Only taking an event ends this. */
  lemma LoudStays(s: State, a: Step)
    requires Inv(s) && Enabled(s, a) && Loud(s) && a != TakeEvent
    ensures Loud(Do(s, a))
  {
    hide Inv, DoResume, DrainAll, FreeAll, FreeId, PingPrinted, DoSend, DoDelete, Add;
    DestroyKept(s, a);
    LoudInUse(s);
    if EntersHandler(a) {
      EntersFromQuiet(s, a);
    } else {
      match a
      case Send(h) => SendMoves(s, h, h);
      case Delete(h) => DeleteMoves(s, h);
      case ResumeHandler => ResumeLeavesEvent(s);
      case _ =>
    }
  }

  lemma LoudInUse(s: State)
    requires Inv(s) && Loud(s)
    ensures s.ctl.inUse
  {
    hide CoreOk, DeliveredOk, Coupled, PingOk, FirstOk, LogMatches;
  }

  lemma {:induction false} LoudUntil(disablePing: bool, states: seq<State>, steps: seq<Step>, i: nat, j: nat)
    requires Execution(disablePing, states, steps) && i <= j < |states| && Loud(states[i])
    requires forall k :: i <= k < j ==> steps[k] != TakeEvent
    ensures Loud(states[j])
    decreases j
  {
    hide Inv, Do, Enabled, Loud;
    if i < j {
      LoudUntil(disablePing, states, steps, i, j - 1);
      InvAlways(disablePing, states, steps, j - 1);
      assert Enabled(states[j - 1], steps[j - 1]);
      LoudStays(states[j - 1], steps[j - 1]);
    }
  }

  /** No event is left for delivery, or its callback is running now. */
  predicate LastCallback(s: State) {
    s.ctl.pc == Callback || (s.ctl.pc == Deliver && s.ctl.batch == [])
  }

  lemma DestroyLoudOrMuted(s: State)
    requires Inv(s) && Enabled(s, Destroy) && s.ctl.inUse
    ensures LastCallback(s) ==> Muted(Do(s, Destroy))
    ensures !LastCallback(s) ==> Loud(Do(s, Destroy))
  {
    hide CoreOk, DeliveredOk, Coupled, PingOk, FirstOk, LogMatches;
  }

  /** Exactly when a callback starts between a request to destroy a connection in use
      and its end: unless the request was made inside a callback, or after the last
      event of the batch. */
  lemma CallbackFollowsDestroyIff(disablePing: bool, states: seq<State>, steps: seq<Step>, i: nat, j: nat)
    requires Execution(disablePing, states, steps) && i < j < |states|
    requires steps[i] == Destroy && states[i].ctl.inUse && states[j].ctl.pc == Gone
    ensures (exists k :: i < k < j && steps[k] == TakeEvent) <==> !LastCallback(states[i])
  {
    hide Inv, Do, Enabled, Muted, Loud, LastCallback;
    InvAlways(disablePing, states, steps, i);
    assert Enabled(states[i], steps[i]);
    DestroyLoudOrMuted(states[i]);
    if LastCallback(states[i]) {
      forall k | i < k < j ensures steps[k] != TakeEvent {
        MutedForever(disablePing, states, steps, i + 1, k);
        InvAlways(disablePing, states, steps, k);
        assert Enabled(states[k], steps[k]);
        MutedStays(states[k], steps[k]);
      }
    } else if forall k :: i < k < j ==> steps[k] != TakeEvent {
      LoudUntil(disablePing, states, steps, i + 1, j);
      GoneIsNotLoud(states[j]);
    }
  }

  lemma GoneIsNotLoud(s: State)
    requires s.ctl.pc == Gone
    ensures !Loud(s)
  {
  }

  // ----- a deleted payment, sent -----

  const KEY: seq<byte> := [0x61]

  /** One transaction, the first of its connection, and nothing else. */
  predicate Lone(s: State, t: Txn) {
    && s.pool.txns == map[0 := t] && s.pool.delayRm == [] && s.pool.pending == [] && s.pool.done == []
    && s.pool.newq == (if t.status == Status.New then [0] else [])
    && s.pool.ready == (if t.status == Status.Ready then [0] else [])
    && (t.status == Status.New || t.status == Status.Ready) && !t.ping && t.fate == Unresolved
    && s.link.disablePing && s.link.pingTxn == None && s.hist.printed == [] && !s.ctl.destroy && s.ctl.batch == []
  }

  lemma Prepared() returns (a: State, b: State, c: State)
    ensures Enabled(Init(true), Step.New(1)) && a == Do(Init(true), Step.New(1))
    ensures Enabled(a, SetParam(0, KEY, [])) && b == Do(a, SetParam(0, KEY, []))
    ensures Enabled(b, SetTimeout(0, 30)) && c == Do(b, SetTimeout(0, 30))
    ensures 0 in c.pool.txns && Lone(c, c.pool.txns[0]) && Sendable(c.pool.txns[0]) && c.pool.txns[0].timeout == 30
    ensures c.link == Init(true).link && c.ctl == Init(true).ctl
  {
    hide KeyValue.SetPair;
    a := Do(Init(true), Step.New(1));
    assert Lone(a, Blank(1));
    b := Do(a, SetParam(0, KEY, []));
    c := Do(b, SetTimeout(0, 30));
    assert c.pool.txns == map[0 := c.pool.txns[0]];
  }

  /** Sent while disconnected; then the connection comes up without a ping. */
  lemma Opened(c: State) returns (d: State, e: State, f: State)
    requires 0 in c.pool.txns && Lone(c, c.pool.txns[0]) && Sendable(c.pool.txns[0]) && c.pool.txns[0].timeout == 30
    requires c.link == Init(true).link && c.ctl == Init(true).ctl
    ensures Enabled(c, Step.Send(0)) && d == Do(c, Step.Send(0))
    ensures Enabled(d, Connect(true)) && e == Do(d, Connect(true))
    ensures Enabled(e, OnConnected(2, 0)) && f == Do(e, OnConnected(2, 0))
    ensures 0 in f.pool.txns && Lone(f, f.pool.txns[0]) && f.pool.txns[0].status == Status.Ready && f.pool.txns[0].timeout == 30
    ensures f.ctl.pc == Cleanup(FromConnected) && f.ctl.inUse
  {
    hide PromoteAll, PingPrinted;
    d := Do(c, Step.Send(0));
    assert Without([0], 0) == [];
    e := Do(d, Connect(true));
    f := Do(e, OnConnected(2, 0));
    assert f.pool.txns == map[0 := f.pool.txns[0]];
  }

  /** Deleted in the window, it is printed when the handler goes on, and its timer
      is started. */
  lemma DeletedThenPrinted(f: State) returns (g: State, h: State, i: State)
    requires Inv(f) && f.ctl.pc == Cleanup(FromConnected) && f.ctl.inUse
    requires 0 in f.pool.txns && Lone(f, f.pool.txns[0]) && f.pool.txns[0].status == Status.Ready && f.pool.txns[0].timeout == 30
    ensures Enabled(f, Delete(0)) && g == Do(f, Delete(0))
    ensures Enabled(g, DeletePing) && h == Do(g, DeletePing)
    ensures Enabled(h, ResumeHandler) && i == Do(h, ResumeHandler)
    ensures Ticking(i.pool, 0) && WasPrinted(i.hist.printed, 0) && Inv(i)
    ensures i.ctl.pc == Deliver && i.ctl.batch == [ConnConnected] && !i.ctl.destroy
  {
    hide Inv, CoreOk, PromoteAll, WasPrinted;
    g := Do(f, Delete(0));
    h := Do(g, DeletePing);
    StepKeepsInv(f, Delete(0));
    StepKeepsInv(g, DeletePing);
    StepKeepsInv(h, ResumeHandler);
    OpenUpPrints(h, 0);
    OpenUpInv(h);
    OpenUpBatch(h);
    i := Do(h, ResumeHandler);
  }

  lemma NothingDeferred(s: State)
    requires s.pool.delayRm == []
    ensures DrainAll(s) == s
  {
  }

  /** The one event is delivered, and the deferred list drained. */
  lemma DeliveredAndDrained(i: State) returns (j: State, k: State, l: State)
    requires Inv(i) && i.ctl.pc == Deliver && i.ctl.batch == [ConnConnected] && !i.ctl.destroy
    ensures Enabled(i, TakeEvent) && j == Do(i, TakeEvent)
    ensures Enabled(j, CheckDestroy) && k == Do(j, CheckDestroy)
    ensures Enabled(k, DrainDeferred) && l == Do(k, DrainDeferred)
    ensures Ticking(i.pool, 0) ==> 0 in l.pool.dangling
    ensures i.pool.delayRm == [] ==> l.pool == i.pool
    ensures l.ctl.pc.Leave? && !l.ctl.destroy
  {
    hide Inv, DrainAll;
    j := Do(i, TakeEvent);
    k := Do(j, CheckDestroy);
    StepKeepsInv(i, TakeEvent);
    StepKeepsInv(j, CheckDestroy);
    l := Do(k, DrainDeferred);
    DanglingStep(k, DrainDeferred);
    DrainKeepsCtl(k);
    if i.pool.delayRm == [] { NothingDeferred(k); }
  }

  /** A payment deleted while the handler, with the lock dropped, deletes the ping
      goes on the wire after its deletion, and is freed with its timeout timer running. */
  lemma DeletedPaymentSent() returns (states: seq<State>, steps: seq<Step>)
    ensures Execution(true, states, steps) && |steps| == 12
    ensures steps[6] == Delete(0) && !WasPrinted(states[7].hist.printed, 0)
    ensures WasPrinted(states[9].hist.printed, 0) && Ticking(states[9].pool, 0)
    ensures 0 in states[12].pool.dangling
  {
    hide Inv, Do, Enabled, Lone, Sendable, Ticking, Init;
    var a, b, c := Prepared();
    var d, e, f := Opened(c);
    states := [Init(true), a, b, c, d, e, f];
    steps := [Step.New(1), SetParam(0, KEY, []), SetTimeout(0, 30), Step.Send(0), Connect(true), OnConnected(2, 0)];
    InvAlways(true, states, steps, 6);
    var g, h, i := DeletedThenPrinted(f);
    states, steps := Extend(true, states, steps, Delete(0));
    NotYetPrinted(f);
    states, steps := Extend(true, states, steps, DeletePing);
    states, steps := Extend(true, states, steps, ResumeHandler);
    var j, k, l := DeliveredAndDrained(i);
    states, steps := Extend(true, states, steps, TakeEvent);
    states, steps := Extend(true, states, steps, CheckDestroy);
    states, steps := Extend(true, states, steps, DrainDeferred);
  }

  lemma NotYetPrinted(f: State)
    requires Inv(f) && 0 in f.pool.txns && Lone(f, f.pool.txns[0]) && Enabled(f, Delete(0))
    ensures !WasPrinted(Do(f, Delete(0)).hist.printed, 0)
  {
    hide Inv, FreeId, PingPrinted;
    WhoIsPrinted(f, Delete(0), 0);
  }

  // ----- a connection destroyed under a payment -----

  /** Without the deletion, the payment is pending and its timer runs. */
  lemma SentInTime(f: State) returns (g: State, h: State)
    requires Inv(f) && f.ctl.pc == Cleanup(FromConnected) && f.ctl.inUse
    requires 0 in f.pool.txns && Lone(f, f.pool.txns[0]) && f.pool.txns[0].status == Status.Ready && f.pool.txns[0].timeout == 30
    ensures Enabled(f, DeletePing) && g == Do(f, DeletePing)
    ensures Enabled(g, ResumeHandler) && h == Do(g, ResumeHandler)
    ensures Inv(h) && 0 in h.pool.txns && h.pool.txns[0].timer && h.pool.delayRm == []
    ensures h.ctl.pc == Deliver && h.ctl.batch == [ConnConnected] && !h.ctl.destroy
  {
    hide Inv, CoreOk, PromoteAll, WasPrinted;
    g := Do(f, DeletePing);
    StepKeepsInv(f, DeletePing);
    StepKeepsInv(g, ResumeHandler);
    OpenUpPrints(g, 0);
    OpenUpInv(g);
    OpenUpBatch(g);
    h := Do(g, ResumeHandler);
  }

  lemma DestroyedUnder(k: State) returns (l: State, m: State, n: State)
    requires Inv(k) && k.ctl.pc.Leave? && !k.ctl.destroy && 0 in k.pool.txns && k.pool.txns[0].timer
    ensures Enabled(k, Reconnect(false)) && l == Do(k, Reconnect(false))
    ensures Enabled(l, Finish) && m == Do(l, Finish)
    ensures Enabled(m, Destroy) && n == Do(m, Destroy)
    ensures m.ctl.pc == Quiet && 0 in n.pool.dangling
  {
    hide Inv, AllQueued, FreeAll;
    l := Do(k, Reconnect(false));
    m := Do(l, Finish);
    StepKeepsInv(k, Reconnect(false));
    StepKeepsInv(l, Finish);
    n := Do(m, Destroy);
    QuietAlive(m);
    TornDown(m, Destroy, 0);
    DanglingStep(m, Destroy);
  }

  /** Destroying a connection frees a payment that waits for its reply with its
      timeout timer running. */
  lemma DestroyedUnderPayment() returns (states: seq<State>, steps: seq<Step>)
    ensures Execution(true, states, steps) && |steps| == 14 && steps[13] == Destroy
    ensures 0 in states[14].pool.dangling && states[13].ctl.pc == Quiet
  {
    hide Inv, Do, Enabled, Lone, Sendable, Init;
    var a, b, c := Prepared();
    var d, e, f := Opened(c);
    states := [Init(true), a, b, c, d, e, f];
    steps := [Step.New(1), SetParam(0, KEY, []), SetTimeout(0, 30), Step.Send(0), Connect(true), OnConnected(2, 0)];
    InvAlways(true, states, steps, 6);
    var g, h := SentInTime(f);
    states, steps := Extend(true, states, steps, DeletePing);
    states, steps := Extend(true, states, steps, ResumeHandler);
    var i, j, k := DeliveredAndDrained(h);
    states, steps := Extend(true, states, steps, TakeEvent);
    states, steps := Extend(true, states, steps, CheckDestroy);
    states, steps := Extend(true, states, steps, DrainDeferred);
    InvAlways(true, states, steps, 11);
    var l, m, n := DestroyedUnder(k);
    states, steps := Extend(true, states, steps, Reconnect(false));
    states, steps := Extend(true, states, steps, Finish);
    states, steps := Extend(true, states, steps, Destroy);
  }
}
