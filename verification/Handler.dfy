/** The calls of the user and the sections of the event handler on the connection
    object. Each keeps the object valid and does exactly its step of `Engine`, so
    every result about runs is a result about this code. */
module Handler {
  import opened Bytes
  import opened Pool
  import opened Engine
  import opened Core
  import CoreMoves
  import opened Invariant
  import opened Steps
  import opened PingSteps
  import opened Runs
  import opened Connection

  predicate EndsIn(disablePing: bool, states: seq<State>, steps: seq<Step>, s: State) {
    Execution(disablePing, states, steps) && states[|steps|] == s
  }

  /** Some run ends in state `s`. */
  ghost predicate Reached(s: State) {
    exists disablePing: bool, states: seq<State>, steps: seq<Step> :: EndsIn(disablePing, states, steps, s)
  }

  /** The object is well formed, and its value is the last state of some run. So any
      sequence of the methods below, on any connection object, plays a run. */
  ghost predicate Valid(c: Conn)
    reads c, c.live.Values
  {
    c.Rep() && Reached(c.View())
  }

  lemma ReachedInv(s: State)
    requires Reached(s)
    ensures Inv(s)
  {
    var disablePing, states, steps :| EndsIn(disablePing, states, steps, s);
    hide Inv, Do, Enabled;
    InvAlways(disablePing, states, steps, |steps|);
  }

  lemma InitReached(disablePing: bool)
    ensures Reached(Init(disablePing))
  {
    assert EndsIn(disablePing, [Init(disablePing)], [], Init(disablePing));
  }

  /** Step `a` is allowed in `s` and leads to `r`. */
  predicate Takes(s: State, a: Step, r: State) {
    Enabled(s, a) && r == Do(s, a)
  }

  /** Taking a step goes one further along the run. */
  lemma TakesKeeps(s: State, a: Step, r: State)
    requires Reached(s) && Takes(s, a, r)
    ensures Reached(r)
  {
    var disablePing, states, steps :| EndsIn(disablePing, states, steps, s);
    hide Do, Enabled;
    var ss, aa := Extend(disablePing, states, steps, a);
    assert EndsIn(disablePing, ss, aa, r);
  }

  method NewConn(disablePing: bool) returns (c: Conn)
    ensures fresh(c) && Valid(c) && c.View() == Init(disablePing) && c.live == map[]
  {
    hide Reached, Inv, Init;
    InitReached(disablePing);
    c := new Conn(disablePing);
  }

  // ----- calls -----

  /** May the user name this transaction? It is alive and not deleted. */
  ghost predicate Nameable(c: Conn, t: Trans)
    reads c, c.live.Values
  {
    c.pc != Gone && Known(c.live, t) && Usable(c.View(), t.handle)
  }

  method New(c: Conn, draws: seq<nat>) returns (t: Trans)
    requires Valid(c) && c.pc != Gone && forall k :: 0 <= k < |draws| ==> 1 <= draws[k] <= MAX_ID
    requires exists k :: 0 <= k < |draws| && draws[k] !in c.transIdMap
    modifies c
    ensures Valid(c) && fresh(t) && Known(c.live, t)
    ensures Takes(old(c.View()), Step.New(t.id), c.View())
  {
    hide Reached, Inv, DoNew, Takes;
    ghost var s := c.View();
    t := c.TransNew(draws);
    NewTakes(s, t.id);
    TakesKeeps(s, Step.New(t.id), c.View());
  }

  lemma NewTakes(s: State, id: nat)
    requires s.ctl.pc != Gone && FreeId(s.pool, id)
    ensures Takes(s, Step.New(id), DoNew(s, id))
  {
    hide DoNew, FreeId;
  }

  method SetParam(c: Conn, t: Trans, key: seq<byte>, value: seq<byte>) returns (ok: bool)
    requires Valid(c) && Nameable(c, t)
    modifies t
    ensures Valid(c) && Takes(old(c.View()), Step.SetParam(t.handle, key, value), c.View())
    ensures ok <==> key != [] && old(t.status) == Status.New
  {
    hide Reached, Inv, DoSetParam, Takes, Usable;
    ghost var s := c.View();
    SetTakes(s, t.handle, key, value, 0);
    ok := c.TransSetParam(t, key, value);
    TakesKeeps(s, Step.SetParam(t.handle, key, value), c.View());
  }

  lemma SetTakes(s: State, h: Handle, key: seq<byte>, value: seq<byte>, secs: nat)
    requires s.ctl.pc != Gone && Usable(s, h)
    ensures h in s.pool.txns
    ensures Takes(s, Step.SetParam(h, key, value), DoSetParam(s, h, key, value))
    ensures Takes(s, Step.SetTimeout(h, secs), DoSetTimeout(s, h, secs))
  {
    hide DoSetParam, DoSetTimeout;
  }

  method SetTimeout(c: Conn, t: Trans, secs: nat) returns (ok: bool)
    requires Valid(c) && Nameable(c, t)
    modifies t
    ensures Valid(c) && Takes(old(c.View()), Step.SetTimeout(t.handle, secs), c.View())
    ensures ok <==> old(t.status) == Status.New
  {
    hide Reached, Inv, DoSetTimeout, DoSetParam, Takes, Usable;
    ghost var s := c.View();
    SetTakes(s, t.handle, [0], [], secs);
    ok := c.TransSetTimeout(t, secs);
    TakesKeeps(s, Step.SetTimeout(t.handle, secs), c.View());
  }

  method Connect(c: Conn, created: bool) returns (ok: bool)
    requires Valid(c) && c.pc != Gone
    modifies c
    ensures Valid(c) && Takes(old(c.View()), Step.Connect(created), c.View())
    ensures ok <==> old(c.io) == NoIo && created
  {
    hide Reached, Inv, DoConnect, Takes;
    ghost var s := c.View();
    LinkTakes(s, created, 0);
    ok := c.Connect(created);
    TakesKeeps(s, Step.Connect(created), c.View());
  }

  lemma LinkTakes(s: State, created: bool, secs: nat)
    requires s.ctl.pc != Gone
    ensures Takes(s, Step.Connect(created), DoConnect(s, created))
    ensures Takes(s, Step.Disconnect, DoDisconnect(s))
    ensures Takes(s, Step.SetIdleTimeout(secs), DoSetIdleTimeout(s, secs))
  {
    hide DoConnect, DoDisconnect, DoSetIdleTimeout;
  }

  /** `send`: accepted only if new and not empty; on a disconnected connection it
      goes on to start one. */
  method Send(c: Conn, t: Trans, created: bool) returns (ok: bool)
    requires Valid(c) && Nameable(c, t)
    modifies c, c.live.Values
    ensures Valid(c) && (ok <==> Sendable(old(t.Value())))
    ensures t.handle in old(c.View()).pool.txns
    ensures var r := DoSend(old(c.View()), t.handle);
            && Takes(old(c.View()), Step.Send(t.handle), r)
            && if ok && old(c.status) == Disconnected then Takes(r, Step.Connect(created), c.View()) else c.View() == r
  {
    hide Reached, Inv, DoSend, DoConnect, Takes, Usable;
    ghost var s := c.View();
    SendTakes(s, t.handle);
    ok := c.SendLocked(t);
    TakesKeeps(s, Step.Send(t.handle), c.View());
    ReachedInv(s);
    SendKeepsStatus(s, t.handle);
    if ok && c.status == Disconnected {
      var _ := Connect(c, created);
    }
  }

  lemma SendTakes(s: State, h: Handle)
    requires s.ctl.pc != Gone && Usable(s, h)
    ensures h in s.pool.txns
    ensures Takes(s, Step.Send(h), DoSend(s, h))
  {
    hide DoSend;
  }

  lemma SendKeepsStatus(s: State, h: Handle)
    requires Inv(s) && h in s.pool.txns
    ensures DoSend(s, h).link.status == s.link.status && DoSend(s, h).ctl.pc == s.ctl.pc
  {
    hide Inv, CoreOk, SendMessages;
    InvParts(s);
    if Sendable(s.pool.txns[h]) {
      CoreMoves.CoreMakeReady(s, h, Away(s));
      SendKeeps(MakeReady(s, h), Away(s));
    }
  }

  method Delete(c: Conn, t: Trans)
    requires Valid(c) && Nameable(c, t)
    modifies c, t
    ensures Valid(c) && Takes(old(c.View()), Step.Delete(t.handle), c.View())
  {
    hide Reached, Inv, DoDelete, Takes;
    ghost var s := c.View();
    DeleteTakes(s, t.handle);
    c.TransDelete(t);
    TakesKeeps(s, Step.Delete(t.handle), c.View());
  }

  lemma DeleteTakes(s: State, h: Handle)
    requires s.ctl.pc != Gone && Usable(s, h)
    ensures Takes(s, Step.Delete(h), DoDelete(s, h))
  {
    hide DoDelete;
  }

  method Disconnect(c: Conn) returns (ok: bool)
    requires Valid(c) && c.pc != Gone
    modifies c
    ensures Valid(c) && Takes(old(c.View()), Step.Disconnect, c.View())
    ensures ok <==> old(c.io) != NoIo && old(c.status) == Connected
  {
    hide Reached, Inv, DoDisconnect, Takes;
    ghost var s := c.View();
    LinkTakes(s, false, 0);
    ok := c.DisconnectLocked();
    TakesKeeps(s, Step.Disconnect, c.View());
  }

  method SetIdleTimeout(c: Conn, secs: nat)
    requires Valid(c) && c.pc != Gone
    modifies c
    ensures Valid(c) && Takes(old(c.View()), Step.SetIdleTimeout(secs), c.View())
  {
    hide Reached, Inv, DoSetIdleTimeout, Takes;
    ghost var s := c.View();
    LinkTakes(s, false, secs);
    c.SetIdleTimeout(secs);
    TakesKeeps(s, Step.SetIdleTimeout(secs), c.View());
  }

  method Destroy(c: Conn)
    requires Valid(c) && (c.pc == Quiet || c.inUse)
    modifies c
    ensures Valid(c) && Takes(old(c.View()), Step.Destroy, c.View())
  {
    hide Reached, Inv, Takes, Demolish;
    ghost var s := c.View();
    DestroyTakes(s);
    if c.inUse {
      c.destroy := true;
    } else {
      ReachedInv(s);
      NothingDeferred(s);
      Deferred(c);
      c.Dismantle();
    }
    TakesKeeps(s, Step.Destroy, c.View());
  }

  lemma DestroyTakes(s: State)
    requires s.ctl.pc == Quiet || s.ctl.inUse
    ensures Takes(s, Step.Destroy, DoDestroy(s))
  {
    hide DoDestroy;
  }

  lemma Deferred(c: Conn)
    ensures c.View().pool.delayRm == [] ==> c.transDelayRm == []
  {
    c.Counts();
  }

  lemma NothingDeferred(s: State)
    requires Inv(s) && (s.ctl.pc == Quiet || s.ctl.pc == Last)
    ensures s.pool.delayRm == [] && !s.ctl.inUse
  {
    hide CoreOk, DeliveredOk, Coupled, PingOk, FirstOk, LogMatches;
  }

  // ----- the event handler: entering -----

  method EnterHandler(c: Conn)
    modifies c`inUse, c`pc
    ensures c.View() == Enter(old(c.View()))
    ensures old(c.Rep()) ==> c.Rep()
  {
    c.inUse := true;
    c.pc := Deliver;
  }

  /** The I/O layer reports that the connection ended. */
  method OnLinkLost(c: Conn, isError: bool)
    requires Valid(c) && c.pc == Quiet && c.io != NoIo
    modifies c, c.live.Values
    ensures Valid(c) && Takes(old(c.View()), Step.OnLinkLost(isError), c.View())
  {
    hide Reached, Inv, Takes, Enter, ConnFail;
    ghost var s := c.View();
    LostTakes(s, isError);
    EnterHandler(c);
    c.HandleConnError(isError);
    TakesKeeps(s, Step.OnLinkLost(isError), c.View());
  }

  lemma LostTakes(s: State, isError: bool)
    requires s.ctl.pc == Quiet && s.link.io != NoIo
    ensures Takes(s, Step.OnLinkLost(isError), ConnFail(Enter(s), isError))
  {
    hide ConnFail, Enter;
  }

  /** Data can be read. `input` is what the read returned, if it succeeded. */
  method OnRead(c: Conn, input: Option<seq<byte>>)
    requires Valid(c) && c.pc == Quiet && c.io == Up
    modifies c, c.live.Values
    ensures Valid(c) && Takes(old(c.View()), Step.OnRead(input), c.View())
  {
    hide Reached, Inv, Takes, Enter, Append, ReadOn;
    ghost var s := c.View();
    ReadTakes(s, input);
    EnterHandler(c);
    if input.Some? {
      AppendInput(c, input.value);
      ReadAndReport(c);
    }
    TakesKeeps(s, Step.OnRead(input), c.View());
  }

  lemma ReadTakes(s: State, input: Option<seq<byte>>)
    requires s.ctl.pc == Quiet && s.link.io == Up
    ensures Takes(s, Step.OnRead(input), if input.Some? then ReadOn(Append(Enter(s), input.value)) else Enter(s))
  {
    hide ReadOn, Append, Enter;
  }

  method AppendInput(c: Conn, b: seq<byte>)
    modifies c`inbuf, c`hist
    ensures c.View() == Append(old(c.View()), b)
    ensures old(c.Rep()) ==> c.Rep()
  {
    c.inbuf := c.inbuf + b;
    c.hist := c.hist.(input := c.hist.input + b);
  }

  /** Reading on, from where the read loop left the connection. */
  lemma ReadOnIs(s: State, v: State, end: ReadEnd)
    requires ReadLoop(s).1 == end && v == if end == Failed then Discarded(ReadLoop(s).0) else ReadLoop(s).0
    ensures end == PingAnswered ==> ReadOn(s) == CleanupTake(v, FromRead)
    ensures end != PingAnswered ==>
              var w := if v.pool.pending == [] then ResetTimer(v) else v;
              ReadOn(s) == Goto(if end == Failed then ConnFail(w, true) else w, Deliver)
  {
    hide ReadLoop, ConnFail, CleanupTake;
    var r := ReadLoop(s).0;
    LossDropsInput(r, true);
    LossDropsInput(ResetTimer(r), true);
    hide Discarded, ResetTimer;
  }

  /** The read loop and what follows it. */
  method ReadAndReport(c: Conn)
    requires c.Rep()
    modifies c, c.live.Values
    ensures c.Rep() && c.live == old(c.live) && c.View() == ReadOn(old(c.View()))
  {
    hide Conn.Rep, ReadLoop, ReadOn, ConnFail, CleanupTake, Discarded, Known;
    ghost var s := c.View();
    var end := c.ReadMessages();
    ReadOnIs(s, c.View(), end);
    if end == PingAnswered {
      c.CleanupPing(FromRead);
      return;
    }
    c.Counts();
    if c.transPending == [] {
      c.TimerReset();
    }
    if end == Failed {
      c.HandleConnError(true);
    }
    c.SetPc(Deliver);
  }

  /** The connection can be written; `accept` bounds what the I/O layer takes. */
  method OnWrite(c: Conn, accept: nat) returns (n: nat)
    requires Valid(c) && c.pc == Quiet && c.io == Up
    modifies c
    ensures n == (if accept < |old(c.outbuf)| then accept else |old(c.outbuf)|)
    ensures Valid(c) && Takes(old(c.View()), Step.OnWrite(n), c.View())
  {
    hide Reached, Inv, Takes, Enter, WriteOut;
    ghost var s := c.View();
    n := if accept < |c.outbuf| then accept else |c.outbuf|;
    WriteTakes(s, n);
    EnterAfterWrite(s, n);
    EnterHandler(c);
    c.WriteFromBuf(n);
    TakesKeeps(s, Step.OnWrite(n), c.View());
  }

  lemma WriteTakes(s: State, n: nat)
    requires s.ctl.pc == Quiet && s.link.io == Up && n <= |s.link.outbuf|
    ensures Takes(s, Step.OnWrite(n), Enter(WriteOut(s, n)))
  {
    hide WriteOut, Enter;
  }

  lemma EnterAfterWrite(s: State, n: nat)
    requires n <= |s.link.outbuf|
    ensures Enter(s).link == s.link && Enter(WriteOut(s, n)) == WriteOut(Enter(s), n)
  {
  }

  /** The timeout timer of a transaction fires. */
  method OnTransTimer(c: Conn, t: Trans)
    requires Valid(c) && c.pc == Quiet && Known(c.live, t) && t.timeoutTimer
    modifies c, t
    ensures Valid(c) && Takes(old(c.View()), Step.OnTransTimer(t.handle), c.View())
  {
    hide Reached, Inv, Takes, Enter, Emit, Conn.PoolView;
    ghost var s := c.View();
    Held(c, t);
    TimerTakes(s, t.handle);
    EnterHandler(c);
    c.EventAdd(TransTimeout(t.handle));
    c.KillTimeout(t);
    TakesKeeps(s, Step.OnTransTimer(t.handle), c.View());
  }

  lemma Held(c: Conn, t: Trans)
    requires Known(c.live, t)
    ensures t.handle in c.PoolView().txns && c.PoolView().txns[t.handle] == t.Value()
  {
    HeldAt(c.live, t);
  }

  lemma TimerTakes(s: State, h: Handle)
    requires s.ctl.pc == Quiet && h in s.pool.txns && s.pool.txns[h].timer
    ensures Takes(s, Step.OnTransTimer(h), DoOnTransTimer(s, h))
  {
    hide DoOnTransTimer;
  }

  lemma PingIsLive(c: Conn)
    requires c.Rep() && c.pingTxn != null && c.pingTxn.handle in c.PoolView().txns
    ensures Known(c.live, c.pingTxn)
  {
    hide Homed;
  }

  /** The connection timer fires: no reply to the ping, or idleness. */
  method OnConnTimer(c: Conn)
    requires Valid(c) && c.pc == Quiet && c.timer == Running
    modifies c
    ensures Valid(c) && Takes(old(c.View()), Step.OnConnTimer, c.View())
  {
    hide Reached, Inv, Takes, Enter, CleanupTake, Conn.PoolView, Conn.Rep, Known;
    ghost var s := c.View();
    ConnTimerTakes(s);
    if c.status == Connecting {
      ReachedInv(s);
      PingAtHand(s);
      if c.pingTxn != null { PingIsLive(c); }
    }
    EnterHandler(c);
    EnterKeeps(s);
    if c.status == Connecting {
      c.CleanupPing(FromTimeout);
    } else {
      c.Counts();
      IdleOrNot(c);
    }
    TakesKeeps(s, Step.OnConnTimer, c.View());
  }

  lemma EnterKeeps(s: State)
    ensures Enter(s).link == s.link && Enter(s).pool == s.pool
  {
  }

  method IdleOrNot(c: Conn)
    requires c.Rep() && c.status != Connecting
    modifies c`status, c`timer
    ensures c.Rep()
    ensures c.View() == if old(c.status) == Connected && old(c.PoolView()).pending == [] then
                          SetTimer(old(c.View()).(link := old(c.View()).link.(status := IdleTimeout)), NoTimer)
                        else SetTimer(old(c.View()), NoTimer)
  {
    hide Conn.PoolView, Conn.Rep, Conn.CtlView, Conn.LinkView;
    c.Counts();
    if c.status == Connected && c.transPending == [] {
      BeginIdleDisconnect(c);
    }
    c.TimerSet(NoTimer);
  }

  method BeginIdleDisconnect(c: Conn)
    modifies c`status
    ensures c.View() == old(c.View()).(link := old(c.View()).link.(status := IdleTimeout))
  {
    hide Conn.PoolView, Conn.CtlView;
    c.status := IdleTimeout;
  }

  lemma ConnTimerTakes(s: State)
    requires s.ctl.pc == Quiet && s.link.timer == Running
    ensures Takes(s, Step.OnConnTimer, DoOnConnTimer(s))
  {
    hide DoOnConnTimer;
  }

  /** Between the connected event and the end of the ping, the ping is alive. */
  lemma PingAtHand(s: State)
    requires Inv(s) && s.ctl.pc == Quiet && s.link.timer == Running && s.link.status == Connecting
    ensures s.link.pingTxn.Some? ==> s.link.pingTxn.value in s.pool.txns
  {
    hide CoreOk, DeliveredOk, FirstOk, LogMatches, CtlOk, NoPings;
  }

  /** The I/O object is connected. With pings on, a ping goes out first and its
      timer starts; otherwise the connection is usable once the handler has been
      through the deletion of a ping it does not have. */
  method OnConnected(c: Conn, draws: seq<nat>, accept: nat) returns (id: nat, n: nat)
    requires Valid(c) && c.pc == Quiet && c.io == Opening
    requires forall k :: 0 <= k < |draws| ==> 1 <= draws[k] <= MAX_ID
    requires exists k :: 0 <= k < |draws| && draws[k] !in c.transIdMap
    modifies c, c.live.Values
    ensures Valid(c) && Takes(old(c.View()), Step.OnConnected(id, n), c.View())
  {
    hide Reached, Inv, Takes, Conn.PoolView, DoOnConnected, Enter, CleanupTake, PingPrinted, FreeId, WriteOut;
    ghost var s := c.View();
    if c.disablePing {
      ReachedInv(s);
      NoPingPointer(s);
      PlainTakes(s);
      id, n := 0, 0;
      c.io := Up;
      EnterHandler(c);
      c.CleanupPing(FromConnected);
    } else {
      id, n := ConnectWithPing(c, draws, accept);
      PingTakes(s, id, n);
    }
    TakesKeeps(s, Step.OnConnected(id, n), c.View());
  }

  lemma NoPingPointer(s: State)
    requires Inv(s) && s.ctl.pc == Quiet && s.link.disablePing
    ensures s.link.pingTxn == None
  {
    hide CoreOk, DeliveredOk, Coupled, FirstOk, LogMatches, CtlOk, Pinging, NoPings;
  }

  lemma PlainTakes(s: State)
    requires s.ctl.pc == Quiet && s.link.io == Opening && s.link.disablePing
    ensures Takes(s, Step.OnConnected(0, 0), CleanupTake(Enter(s.(link := s.link.(io := Up))), FromConnected))
  {
    hide CleanupTake;
  }

  method ConnectWithPing(c: Conn, draws: seq<nat>, accept: nat) returns (id: nat, n: nat)
    requires c.Rep() && !c.disablePing && forall k :: 0 <= k < |draws| ==> 1 <= draws[k] <= MAX_ID
    requires exists k :: 0 <= k < |draws| && draws[k] !in c.transIdMap
    modifies c
    ensures c.Rep() && FreeId(old(c.PoolView()), id) && n <= |PingPrinted(old(c.View()), id).link.outbuf|
    ensures c.View() == DoOnConnected(old(c.View()), id, n)
  {
    hide Conn.PoolView, Conn.Rep, PingPrinted, FreeId, WriteOut;
    var t := c.PingRequest(draws);
    id := t.id;
    n := if accept < |c.outbuf| then accept else |c.outbuf|;
    c.WriteFromBuf(n);
    PointAtPing(c, t);
    EnterHandler(c);
  }

  method PointAtPing(c: Conn, t: Trans)
    requires c.Rep() && Known(c.live, t)
    modifies c`io, c`timer, c`pingTxn
    ensures c.Rep()
    ensures c.View() == old(c.View()).(link := old(c.View()).link.(io := Up, timer := Running, pingTxn := Some(t.handle)))
  {
    hide Conn.PoolView;
    Numbered(c, t);
    c.io, c.timer, c.pingTxn := Up, Running, t;
  }

  lemma Numbered(c: Conn, t: Trans)
    requires c.Rep() && Known(c.live, t)
    ensures t.handle < c.next
  {
    hide NoDup, Home;
    Held(c, t);
  }

  lemma PingTakes(s: State, id: nat, n: nat)
    requires s.ctl.pc == Quiet && s.link.io == Opening && !s.link.disablePing
    requires FreeId(s.pool, id) && n <= |PingPrinted(s, id).link.outbuf|
    ensures Takes(s, Step.OnConnected(id, n), DoOnConnected(s, id, n))
  {
    hide DoOnConnected, PingPrinted, FreeId;
  }

  // ----- the event handler: going on -----

  /** Without the lock, the ping is deleted; the handler runs, so it is deferred. */
  method DeletePing(c: Conn)
    requires Valid(c) && c.pc.Cleanup?
    modifies c, c.live.Values
    ensures Valid(c) && Takes(old(c.View()), Step.DeletePing, c.View())
  {
    hide Reached, Inv, Takes, Conn.PoolView, DoDeletePing;
    ghost var s := c.View();
    DeletePingTakes(s);
    ReachedInv(s);
    PingDeletable(s);
    if c.pingTxn != null {
      PingIsLive(c);
      c.TransDelete(c.pingTxn);
    }
    c.SetPc(Cleaned(s.ctl.pc.k));
    TakesKeeps(s, Step.DeletePing, c.View());
  }

  lemma PingDeletable(s: State)
    requires Inv(s) && s.ctl.pc.Cleanup?
    ensures s.ctl.inUse
    ensures s.link.pingTxn.Some? ==> s.link.pingTxn.value in s.pool.txns && s.link.pingTxn.value !in s.pool.delayRm
  {
    hide CoreOk, DeliveredOk, FirstOk, LogMatches, NoPings;
  }

  lemma DeletePingTakes(s: State)
    requires s.ctl.pc.Cleanup?
    ensures Takes(s, Step.DeletePing, DoDeletePing(s))
    ensures DoDeletePing(s) ==
            if s.link.pingTxn.Some? && s.link.pingTxn.value in s.pool.txns
            then Goto(WithPool(s, Defer(s.pool, s.link.pingTxn.value)), Cleaned(s.ctl.pc.k))
            else Goto(s, Cleaned(s.ctl.pc.k))
  {
    hide Defer;
  }

  /** With the lock again: the connection becomes usable, and reading goes on if it
      was a read that answered the ping; or it is lost. `k` is where the handler
      came from. */
  method ResumeHandler(c: Conn, k: Resume)
    requires Valid(c) && c.pc == Cleaned(k)
    modifies c, c.live.Values
    ensures Valid(c) && Takes(old(c.View()), Step.ResumeHandler, c.View())
  {
    hide Reached, Inv, Takes, Conn.PoolView, Conn.Rep, OpenUp, ReadOn, ConnFail;
    ghost var s := c.View();
    ResumeTakes(s);
    match k {
      case FromConnected =>
        c.SetConnected();
        c.SetPc(Deliver);
      case FromRead =>
        c.SetConnected();
        ReadAndReport(c);
      case FromTimeout =>
        c.ForgetPing();
        c.HandleConnError(true);
        c.SetPc(Deliver);
    }
    TakesKeeps(s, Step.ResumeHandler, c.View());
  }

  lemma ResumeTakes(s: State)
    requires s.ctl.pc.Cleaned?
    ensures Takes(s, Step.ResumeHandler, DoResume(s))
  {
    hide DoResume;
  }

  /** Takes the next event; its callback runs without the lock. */
  method TakeEvent(c: Conn) returns (e: Event)
    requires Valid(c) && c.pc == Deliver && c.events != []
    modifies c
    ensures e == old(c.events[0])
    ensures Valid(c) && Takes(old(c.View()), Step.TakeEvent, c.View())
  {
    hide Reached, Inv, Takes, Conn.PoolView, Conn.LinkView;
    ghost var s := c.View();
    EventTakes(s);
    e := c.events[0];
    c.events := c.events[1..];
    c.pc := Callback;
    c.hist := c.hist.(delivered := c.hist.delivered + [e]);
    TakesKeeps(s, Step.TakeEvent, c.View());
  }

  lemma EventTakes(s: State)
    requires s.ctl.pc == Deliver && s.ctl.batch != []
    ensures Takes(s, Step.TakeEvent, DoTakeEvent(s))
  {
    hide DoTakeEvent;
  }

  /** After a callback: a destroy request ends the delivery. */
  method CheckDestroy(c: Conn)
    requires Valid(c) && c.pc == Callback
    modifies c
    ensures Valid(c) && Takes(old(c.View()), Step.CheckDestroy, c.View())
  {
    hide Reached, Inv, Takes, Conn.PoolView, Conn.LinkView;
    ghost var s := c.View();
    CheckTakes(s);
    if c.destroy {
      c.events := [];
    }
    c.pc := Deliver;
    TakesKeeps(s, Step.CheckDestroy, c.View());
  }

  lemma CheckTakes(s: State)
    requires s.ctl.pc == Callback
    ensures Takes(s, Step.CheckDestroy, DoCheckDestroy(s))
  {
    hide DoCheckDestroy;
  }

  /** The deferred deletions are done, and the handler decides whether to reconnect. */
  method DrainDeferred(c: Conn) returns (requestConnect: bool)
    requires Valid(c) && c.pc == Deliver && c.events == []
    modifies c
    ensures c.pc == Leave(requestConnect)
    ensures Valid(c) && Takes(old(c.View()), Step.DrainDeferred, c.View())
  {
    hide Reached, Inv, Takes, Conn.PoolView, Conn.LinkView, DrainAll;
    ghost var s := c.View();
    DrainTakes(s);
    c.DrainDeferred();
    c.inUse := false;
    c.Counts();
    requestConnect := c.status == Disconnected && c.transReady != [];
    c.pc := Leave(requestConnect);
    TakesKeeps(s, Step.DrainDeferred, c.View());
  }

  lemma DrainTakes(s: State)
    requires s.ctl.pc == Deliver && s.ctl.batch == []
    ensures Takes(s, Step.DrainDeferred, DoDrain(s))
  {
    hide DoDrain;
  }

  method Reconnect(c: Conn, requestConnect: bool, created: bool)
    requires Valid(c) && c.pc == Leave(requestConnect)
    modifies c
    ensures Valid(c) && Takes(old(c.View()), Step.Reconnect(created), c.View())
  {
    hide Reached, Inv, Takes, Conn.PoolView, Conn.Rep, DoConnect;
    ghost var s := c.View();
    ReconnectTakes(s, created);
    if requestConnect {
      var _ := c.Connect(created);
    }
    c.SetPc(Last);
    TakesKeeps(s, Step.Reconnect(created), c.View());
  }

  lemma ReconnectTakes(s: State, created: bool)
    requires s.ctl.pc.Leave?
    ensures Takes(s, Step.Reconnect(created), DoReconnect(s, created))
  {
    hide DoReconnect;
  }

  /** The end of the handler: the connection is destroyed now, if asked for. */
  method Finish(c: Conn)
    requires Valid(c) && c.pc == Last
    modifies c
    ensures Valid(c) && Takes(old(c.View()), Step.Finish, c.View())
  {
    hide Reached, Inv, Takes, Conn.PoolView, Demolish;
    ghost var s := c.View();
    FinishTakes(s);
    if c.destroy {
      ReachedInv(s);
      NothingDeferred(s);
      Deferred(c);
      c.Dismantle();
    } else {
      c.SetPc(Quiet);
    }
    TakesKeeps(s, Step.Finish, c.View());
  }

  lemma FinishTakes(s: State)
    requires s.ctl.pc == Last
    ensures Takes(s, Step.Finish, DoFinish(s))
  {
    hide DoFinish;
  }
}
