/** What each call of the user does to the whole connection, and what calls add up to
    over a run: the sends counted, the disconnect that was asked for. */
module Calls {
  import opened Bytes
  import opened Pool
  import opened Engine
  import opened Core
  import opened CoreMoves
  import opened Effects
  import opened Invariant
  import opened Steps
  import opened HandlerSteps
  import opened PingSteps
  import opened Progress
  import opened Runs
  import opened Shutdown
  import opened PingWindow
  import Losses
  import Timers
  import KeyValue
  import Framing

  // ----- send -----

  /** A new transaction with at least one parameter. */
  predicate CanBeSent(s: State, h: Handle) {
    h in s.pool.txns && s.pool.txns[h].status == Status.New && s.pool.txns[h].request != []
  }

  /** An accepted `send` from `s` to `r`: the transaction leaves the new queue with the
      next send number. When connected it is pending, its timer runs if it has a
      timeout, its request is printed and forgotten, and the idle timer stops;
      otherwise it is the last of the ready queue. Nothing else changes. */
  predicate SentTo(s: State, h: Handle, r: State)
    requires h in s.pool.txns
  {
    var t, n := s.pool.txns[h], s.hist.sends;
    var msg := Framing.Message(t.id, KeyValue.Payload(t.request));
    if s.link.status == Connected then
      && r.pool == s.pool.(txns := s.pool.txns[h := t.(status := Status.Pending, request := [], timer := t.timeout != 0, order := n)],
                           newq := Without(s.pool.newq, h), pending := s.pool.pending + [h])
      && r.link == s.link.(outbuf := s.link.outbuf + Framing.Frame(msg.id, msg.data),
                           timer := if s.link.timer == NoTimer then NoTimer else Stopped)
      && r.hist == s.hist.(sends := n + 1, printed := s.hist.printed + [Print(h, msg, false, n)])
      && r.ctl == s.ctl
    else
      && r.pool == s.pool.(txns := s.pool.txns[h := t.(status := Status.Ready, order := n)],
                           newq := Without(s.pool.newq, h), ready := s.pool.ready + [h])
      && r.hist == s.hist.(sends := n + 1)
      && r.link == s.link && r.ctl == s.ctl
  }

  lemma NewToReady(p: Pool, h: Handle, t: Txn)
    requires h in p.txns && p.txns[h].status == Status.New && t.status == Status.Ready
    ensures Move(p, h, t) == p.(txns := p.txns[h := t], newq := Without(p.newq, h), ready := p.ready + [h])
  {
    hide Without;
  }

  lemma SendDoes(s: State, h: Handle)
    requires Inv(s) && Enabled(s, Step.Send(h))
    ensures if CanBeSent(s, h) then SentTo(s, h, DoSend(s, h)) else DoSend(s, h) == s
  {
    hide Inv, CoreOk, PromoteAll, Without, KeyValue.Payload, Framing.Frame;
    if CanBeSent(s, h) {
      InvParts(s);
      NewToReady(s.pool, h, Queued(s.pool.txns[h], s.hist.sends));
      CoreMovesReady(s, h);
      if s.link.status == Connected {
        ConnectedReady(s);
        var m := MakeReady(s, h);
        PromoteAllIs(m, Away(s));
        assert m.pool.ready == [h];
        PromotedSingle(m, h);
        assert s.pool.txns[h := Queued(s.pool.txns[h], s.hist.sends)][h := Sent(m.pool.txns[h])] == s.pool.txns[h := Sent(m.pool.txns[h])];
      }
    }
  }

  lemma PromotedSingle(m: State, h: Handle)
    requires m.pool.ready == [h] && h in m.pool.txns
    ensures Promoted(m) == m.(pool := m.pool.(txns := m.pool.txns[h := Sent(m.pool.txns[h])], ready := [], pending := m.pool.pending + [h]),
                              link := m.link.(outbuf := m.link.outbuf + Framing.Frame(PrintOf(m, h).msg.id, PrintOf(m, h).msg.data)),
                              hist := m.hist.(printed := m.hist.printed + [PrintOf(m, h)]))
  {
    hide KeyValue.Payload, Framing.Frame, PrintOf;
    assert [h][1..] == [];
    assert PrintsOf(m, [h]) == [PrintOf(m, h)];
    StreamCons(PrintOf(m, h), []);
    assert [PrintOf(m, h)] + [] == [PrintOf(m, h)];
    assert Stream([]) == [];
    assert SentAll(m.pool.txns, [h]) == m.pool.txns[h := Sent(m.pool.txns[h])];
  }

  /** In every run, at every `send`: what is accepted, what that does, and that a
      refused one does nothing. */
  lemma SendMeans(disablePing: bool, states: seq<State>, steps: seq<Step>, i: nat, h: Handle)
    requires Execution(disablePing, states, steps) && i < |steps| && steps[i] == Step.Send(h)
    ensures h in states[i].pool.txns
    ensures if CanBeSent(states[i], h) then SentTo(states[i], h, states[i + 1]) else states[i + 1] == states[i]
  {
    assert Enabled(states[i], steps[i]) && states[i + 1] == Do(states[i], steps[i]);
    InvAlways(disablePing, states, steps, i);
    hide Execution, Inv, DoSend, SentTo;
    SendDoes(states[i], h);
  }

  // ----- what other steps leave alone -----

  /** Transactions not yet on the wire, the number of sends and the idle timeout. */
  predicate Untouched(s: State, r: State) {
    && r.hist.sends == s.hist.sends && r.link.idleTimeout == s.link.idleTimeout
    && forall h :: h in r.pool.txns && !OnWire(r.pool.txns[h]) ==> h in s.pool.txns && r.pool.txns[h] == s.pool.txns[h]
  }

  lemma ResumeUntouched(s: State)
    requires Inv(s) && s.ctl.pc.Cleaned?
    ensures Untouched(s, DoResume(s))
  {
    hide Inv, CoreOk, OpenUp, ReadOn, ConnFail, Timers.OnlyEnds;
    InvParts(s);
    if s.ctl.pc.k == FromTimeout {
      var t := s.(link := s.link.(pingTxn := None));
      CoreTimer(s, t, Away(s));
      Timers.ConnFailStill(t, true, Away(s));
      EndsUntouched(t, ConnFail(t, true));
    } else {
      OpenUpUntouched(s);
      if s.ctl.pc.k == FromRead {
        OpenUpInv(s) by { hide Exact; }
        var t := Goto(OpenUp(s), Deliver);
        InvCore(t);
        CoreTimer(t, OpenUp(s), Away(t));
        OpenUpPrints(s, 0) by { hide WasPrinted; }
        Timers.ReadOnStill(OpenUp(s), Away(t)) by { OpenUpPointer(s); }
        EndsUntouched(OpenUp(s), ReadOn(OpenUp(s)));
      }
    }
  }

  lemma OpenUpPointer(s: State)
    requires Inv(s) && s.ctl.pc.Cleaned?
    ensures OpenUp(s).link.pingTxn == None
  {
    Losses.OpenUpSends(s);
    hide Inv, OpenUp;
  }

  lemma OpenUpUntouched(s: State)
    requires Inv(s) && s.ctl.pc.Cleaned?
    ensures Untouched(s, OpenUp(s))
  {
    hide Inv, CoreOk, PromoteAll, Stream, PrintsOf;
    InvCore(s);
    var c := s.(link := s.link.(pingTxn := None, status := Connected));
    CoreTimer(s, c, Away(s));
    CoreEmit(c, ConnConnected, Away(s));
    PromoteAllIs(Emit(c, ConnConnected), Away(s));
  }

  lemma EndsUntouched(s: State, r: State)
    requires Timers.OnlyEnds(s, r)
    ensures Untouched(s, r)
  {
  }

  lemma HandlerUntouched(s: State, a: Step)
    requires Inv(s) && Enabled(s, a) && EntersHandler(a)
    ensures Untouched(s, Do(s, a))
  {
    hide Inv, CoreOk, ReadOn, Append, ConnFail, DoOnConnected, DoOnTransTimer, DoOnConnTimer, Timers.OnlyEnds, FreeId;
    EntersFromQuiet(s, a);
    match a
    case OnConnected(id, n) => ConnectedUntouched(s, id, n);
    case OnRead(input) =>
      if input.Some? {
        Timers.OnReadStill(s, input.value);
        EndsUntouched(s, ReadOn(Append(Enter(s), input.value)));
      }
    case OnLinkLost(isError) =>
      Entered(s) by { hide Exact; }
      Timers.ConnFailStill(Enter(s), isError, {});
      EndsUntouched(Enter(s), ConnFail(Enter(s), isError));
    case OnTransTimer(h) => TimeoutUntouched(s, h) by { InvParts(s); }
    case OnConnTimer => ConnTimerUntouched(s);
    case _ =>
  }

  lemma TimeoutUntouched(s: State, h: Handle)
    requires h in s.pool.txns && s.pool.txns[h].status == Status.Pending
    ensures Untouched(s, DoOnTransTimer(s, h))
  {
  }

  lemma ConnTimerUntouched(s: State)
    ensures Untouched(s, DoOnConnTimer(s))
  {
    hide Without;
  }

  lemma ConnectedUntouched(s: State, id: nat, n: nat)
    requires Enabled(s, OnConnected(id, n))
    ensures Untouched(s, DoOnConnected(s, id, n))
  {
    hide FreeId, DoOnConnected;
    Timers.ConnectedTxns(s, id, n);
    ConnectedRest(s, id, n);
  }

  lemma ConnectedRest(s: State, id: nat, n: nat)
    requires Enabled(s, OnConnected(id, n))
    ensures DoOnConnected(s, id, n).hist.sends == s.hist.sends && DoOnConnected(s, id, n).link.idleTimeout == s.link.idleTimeout
  {
    hide FreeId, PingPrinted, Without;
    if !s.link.disablePing { PingParts(s, id); }
  }

  lemma DeleteUntouched(s: State, g: Handle)
    requires Inv(s) && g in s.pool.txns
    ensures Untouched(s, DoDelete(s, g))
  {
    hide Inv, CoreOk, DoDelete;
    InvParts(s);
    DeleteMoves(s, g);
    DeleteSends(s, g);
  }

  lemma DeleteSends(s: State, g: Handle)
    requires g in s.pool.txns
    ensures DoDelete(s, g).hist == s.hist && DoDelete(s, g).link == s.link.(timer := DoDelete(s, g).link.timer)
  {
    hide Erase, Defer;
  }

  lemma DrainUntouched(s: State)
    ensures Untouched(s, DrainAll(s))
  {
    hide DrainAll;
    DrainKeepsLink(s);
    forall h | h in DrainAll(s).pool.txns ensures h in s.pool.txns && DrainAll(s).pool.txns[h] == s.pool.txns[h] {
      Timers.DrainKeepsTxns(s, h);
    }
  }

  /** A call that is meant to change what is not yet on the wire, or a setting. */
  predicate Changes(a: Step) {
    a.New? || a.SetParam? || a.SetTimeout? || a.Send? || a.SetIdleTimeout?
  }

  lemma OthersUntouched(s: State, a: Step)
    requires Inv(s) && Enabled(s, a) && !Changes(a)
    ensures Untouched(s, Do(s, a))
  {
    hide Inv, CoreOk, DoDelete, DoResume, DrainAll, FreeAll, Untouched;
    if EntersHandler(a) {
      HandlerUntouched(s, a);
    } else {
      match a
      case Delete(g) => DeleteUntouched(s, g);
      case ResumeHandler => ResumeUntouched(s);
      case DrainDeferred =>
        DrainUntouched(s);
        UntouchedBy(s, DrainAll(s), Do(s, a));
      case DeletePing => DeletePingUntouched(s);
      case Destroy => TornUntouched(s, a);
      case Finish => TornUntouched(s, a);
      case _ => SamePool(s, a);
    }
  }

  lemma UntouchedBy(s: State, m: State, r: State)
    requires Untouched(s, m) && r.pool == m.pool && r.hist == m.hist && r.link == m.link
    ensures Untouched(s, r)
  {
  }

  lemma SamePool(s: State, a: Step)
    requires Enabled(s, a) && (a.Connect? || a == Disconnect || a == TakeEvent || a == CheckDestroy || a.Reconnect?)
    ensures Untouched(s, Do(s, a))
  {
  }

  lemma TornUntouched(s: State, a: Step)
    requires Enabled(s, a) && (a == Destroy || a == Finish)
    ensures Untouched(s, Do(s, a))
  {
  }

  lemma DeletePingUntouched(s: State)
    requires Inv(s) && s.ctl.pc.Cleanup?
    ensures Untouched(s, DoDeletePing(s))
  {
    hide Inv, CoreOk;
    InvParts(s);
    PingPointer(s);
  }

  // ----- the sends counted -----

  /** How many `send` calls were accepted before state `n`. */
  function Accepted(states: seq<State>, steps: seq<Step>, n: nat): nat
    requires n <= |steps| < |states|
  {
    if n == 0 then 0
    else Accepted(states, steps, n - 1)
         + if steps[n - 1].Send? && CanBeSent(states[n - 1], steps[n - 1].h) then 1 else 0
  }

  /** A transaction is numbered by the accepted sends before its own. */
  lemma {:induction false} SendsAreCounted(disablePing: bool, states: seq<State>, steps: seq<Step>, n: nat)
    requires Execution(disablePing, states, steps) && n < |states|
    ensures states[n].hist.sends == Accepted(states, steps, n)
  {
    hide Inv, Do, Enabled, CanBeSent, SentTo, Untouched;
    if n > 0 {
      var s, a := states[n - 1], steps[n - 1];
      SendsAreCounted(disablePing, states, steps, n - 1);
      InvAlways(disablePing, states, steps, n - 1);
      assert Enabled(s, a);
      if a.Send? {
        SendMeans(disablePing, states, steps, n - 1, a.h);
        if CanBeSent(s, a.h) { SentCounts(s, a.h, states[n]); }
      } else {
        OthersCount(s, a);
      }
    }
  }

  lemma SentCounts(s: State, h: Handle, r: State)
    requires h in s.pool.txns && SentTo(s, h, r)
    ensures r.hist.sends == s.hist.sends + 1
  {
  }

  lemma OthersCount(s: State, a: Step)
    requires Inv(s) && Enabled(s, a) && !a.Send?
    ensures Do(s, a).hist.sends == s.hist.sends
  {
    hide Inv;
    if !Changes(a) {
      hide Do, Enabled;
      OthersUntouched(s, a);
    }
  }

  // ----- the other calls -----

  /** A new transaction is blank, indexed under its id, and last of the new queue. */
  predicate Created(p: Pool, id: nat, q: Pool) {
    var t := Txn(id, false, Status.New, [], 0, false, NoResponse, Unresolved, 0);
    q == p.(txns := p.txns[p.next := t], newq := p.newq + [p.next], idMap := p.idMap[id := p.next], next := p.next + 1)
  }

  /** Deletion is deferred, with the timeout timer killed. */
  predicate Deferred(p: Pool, h: Handle, q: Pool) {
    h in p.txns && q == p.(txns := p.txns[h := p.txns[h].(timer := false)], delayRm := p.delayRm + [h])
  }

  /** The transaction is gone from its queue and the index, and freed. */
  predicate Erased(p: Pool, h: Handle, q: Pool) {
    && h in p.txns
    && q == p.(txns := p.txns - {h}, idMap := p.idMap - {p.txns[h].id}, freed := p.freed + [h],
               newq := Without(p.newq, h), ready := Without(p.ready, h), pending := Without(p.pending, h),
               done := Without(p.done, h))
  }

  /** Every transaction is freed, and nothing is left. */
  predicate AllFreed(p: Pool, q: Pool) {
    && q.txns == map[] && q.idMap == map[] && q.newq == [] && q.ready == [] && q.pending == [] && q.done == []
    && p.freed <= q.freed && (forall h :: h in p.txns ==> h in q.freed[|p.freed|..])
    && (forall h :: h in q.freed[|p.freed|..] ==> h in p.txns)
  }

  /** Request or timeout of one transaction may change, if it is new. */
  predicate SetsOne(s: State, h: Handle, ok: bool, r: State) {
    && h in s.pool.txns && h in r.pool.txns
    && var t, u := s.pool.txns[h], r.pool.txns[h];
       if ok && t.status == Status.New then
         r == s.(pool := s.pool.(txns := s.pool.txns[h := t.(request := u.request, timeout := u.timeout)]))
       else r == s
  }

  predicate Deletes(s: State, h: Handle, r: State) {
    && r.hist == s.hist && r.ctl == s.ctl
    && if s.ctl.inUse then Deferred(s.pool, h, r.pool) && r.link == s.link
       else
         && Erased(s.pool, h, r.pool)
         && r.link == if s.link.status == Connected && r.pool.pending == [] && s.link.timer != NoTimer
                      then s.link.(timer := Running) else s.link
  }

  predicate Destroys(s: State, r: State) {
    if s.ctl.inUse then r == s.(ctl := s.ctl.(destroy := true))
    else
      && r.ctl == s.ctl.(pc := Gone) && r.hist == s.hist && r.link == s.link.(io := NoIo, timer := NoTimer)
      && AllFreed(s.pool, r.pool)
  }

  /** The connection timer after the idle timeout was set: gone for 0, started anew with
      nothing pending, else created if there was none; when not connected, untouched. */
  function TimerFor(s: State, secs: nat): Timer {
    if s.link.status != Connected then s.link.timer
    else if secs == 0 then NoTimer
    else if s.pool.pending == [] then Running
    else if s.link.timer == NoTimer then Stopped
    else s.link.timer
  }

  /** What the other calls do, and that they do nothing else. A deletion, and the
      destruction of the connection, are put off while the handler runs. Connecting makes
      an attempt exactly if the connection is down and an I/O object can be created. The
      idle timeout is set at once. */
  predicate CallDoes(s: State, a: Step, r: State) {
    match a
    case New(id) => Created(s.pool, id, r.pool) && r == s.(pool := r.pool)
    case SetParam(h, key, _) => SetsOne(s, h, key != [], r) && h in s.pool.txns && r.pool.txns[h].timeout == s.pool.txns[h].timeout
    case SetTimeout(h, _) => SetsOne(s, h, true, r) && h in s.pool.txns && r.pool.txns[h].request == s.pool.txns[h].request
    case Delete(h) => Deletes(s, h, r)
    case Connect(ok) =>
      r == if s.link.status == Disconnected && ok
           then s.(link := s.link.(io := Opening, status := Connecting), hist := s.hist.(log := s.hist.log + [Attempt])) else s
    case SetIdleTimeout(secs) =>
      r == s.(link := s.link.(idleTimeout := secs, timer := TimerFor(s, secs)))
    case Destroy => Destroys(s, r)
    case _ => true
  }

  lemma ElsewhereIs(p: Pool, h: Handle, away: set<Handle>)
    requires PoolOk(p, away) && h in p.txns
    ensures p.txns[h].status != Status.New ==> Without(p.newq, h) == p.newq
    ensures p.txns[h].status != Status.Ready ==> Without(p.ready, h) == p.ready
    ensures p.txns[h].status != Status.Pending ==> Without(p.pending, h) == p.pending
    ensures p.txns[h].status != Status.Done ==> Without(p.done, h) == p.done
  {
    hide Ledger, NoDup;
  }

  lemma EraseDoes(p: Pool, h: Handle, away: set<Handle>)
    requires PoolOk(p, away) && h in p.txns && !p.txns[h].timer
    ensures Erased(p, h, Erase(p, h))
  {
    ElsewhereIs(p, h, away);
    hide PoolOk, Without;
  }

  lemma DeleteDoes(s: State, h: Handle)
    requires Inv(s) && Enabled(s, Delete(h))
    ensures Deletes(s, h, DoDelete(s, h))
  {
    hide Inv, CoreOk, Erased, Erase;
    if !s.ctl.inUse {
      InvCore(s);
      CoreKillTimer(s, h, Away(s));
      PoolPart(WithPool(s, KillTimer(s.pool, h)), Away(s));
      EraseDoes(KillTimer(s.pool, h), h, Away(s)) by { hide PoolOk; }
      ErasedEither(s.pool, h, Erase(KillTimer(s.pool, h), h));
    }
  }

  /** Killing the timer first makes no difference to what is left. */
  lemma ErasedEither(p: Pool, h: Handle, q: Pool)
    requires h in p.txns && Erased(KillTimer(p, h), h, q)
    ensures Erased(p, h, q)
  {
    hide Without;
    assert p.txns[h := p.txns[h].(timer := false)] - {h} == p.txns - {h};
  }

  lemma FreeAllDoes(p: Pool)
    requires forall h :: h in AllQueued(p) <==> h in p.txns
    ensures AllFreed(p, FreeAll(p))
  {
    assert FreeAll(p).freed == p.freed + (p.newq + p.ready + p.pending + p.done);
    assert FreeAll(p).freed[|p.freed|..] == AllQueued(p);
  }

  lemma DestroyDoes(s: State)
    requires Inv(s) && Enabled(s, Destroy)
    ensures Destroys(s, DoDestroy(s))
  {
    QueuedAre(s);
    hide Inv, AllFreed, FreeAll, AllQueued;
    if !s.ctl.inUse { FreeAllDoes(s.pool); }
  }

  lemma QueuedAre(s: State)
    requires Inv(s) && Enabled(s, Destroy)
    ensures !s.ctl.inUse ==> forall h :: h in AllQueued(s.pool) <==> h in s.pool.txns
  {
    hide Ledger, NoDup, PrintsOk, InSendOrder, WireOk, PastOk, InputOk, TraceOk, BatchOk, RepliesOk, DeliveredOk, Coupled,
         PingOk, FirstOk, LogMatches;
    if !s.ctl.inUse { assert Away(s) == {}; }
  }

  lemma IoMeansStatus(s: State)
    requires Inv(s) && s.ctl.pc != Gone
    ensures s.link.io == NoIo <==> s.link.status == Disconnected
  {
    hide CoreOk, DeliveredOk, PingOk, FirstOk, LogMatches, CtlOk;
  }

  /** In every run, at every call. */
  lemma CallsMean(disablePing: bool, states: seq<State>, steps: seq<Step>, i: nat)
    requires Execution(disablePing, states, steps) && i < |steps|
    ensures CallDoes(states[i], steps[i], states[i + 1])
  {
    assert Enabled(states[i], steps[i]) && states[i + 1] == Do(states[i], steps[i]);
    InvAlways(disablePing, states, steps, i);
    hide Execution;
    EveryCallDoes(states[i], steps[i]);
  }

  lemma EveryCallDoes(s: State, a: Step)
    requires Inv(s) && Enabled(s, a)
    ensures CallDoes(s, a, Do(s, a))
  {
    hide Inv, Deletes, DoDelete, Destroys, DoDestroy, SetsOne, FreeId;
    match a
    case SetParam(h, key, value) => SettingDoes(s, a, h);
    case SetTimeout(h, _) => SettingDoes(s, a, h);
    case Delete(h) => DeleteDoes(s, h);
    case Destroy => DestroyDoes(s);
    case Connect(_) => IoMeansStatus(s);
    case New(id) =>
    case SetIdleTimeout(secs) =>
    case _ => OtherStep(s, a);
  }

  lemma SettingDoes(s: State, a: Step, h: Handle)
    requires Enabled(s, a) && (a.SetParam? || a.SetTimeout?) && a.h == h
    ensures h in s.pool.txns && SetsOne(s, h, a.SetParam? ==> a.key != [], Do(s, a))
    ensures a.SetParam? ==> Do(s, a).pool.txns[h].timeout == s.pool.txns[h].timeout
    ensures a.SetTimeout? ==> Do(s, a).pool.txns[h].request == s.pool.txns[h].request
  {
    hide KeyValue.SetPair;
  }

  lemma OtherStep(s: State, a: Step)
    requires !a.New? && !a.SetParam? && !a.SetTimeout? && !a.Delete? && !a.Connect? && !a.SetIdleTimeout? && a != Destroy
    ensures forall r :: CallDoes(s, a, r)
  {
  }

  // ----- disconnect -----

  /** In every run, at every `disconnect`: a connected connection starts to disconnect,
      and that is all; any other is left alone. */
  lemma DisconnectMeans(disablePing: bool, states: seq<State>, steps: seq<Step>, i: nat)
    requires Execution(disablePing, states, steps) && i < |steps| && steps[i] == Disconnect
    ensures states[i + 1] == if states[i].link.status == Connected then states[i].(link := states[i].link.(status := Disconnecting))
                             else states[i]
  {
    assert Enabled(states[i], steps[i]) && states[i + 1] == Do(states[i], steps[i]);
    InvAlways(disablePing, states, steps, i);
    hide Execution, CoreOk, DeliveredOk, PingOk, FirstOk, LogMatches, CtlOk;
  }

  lemma ClosingSteps(s: State, a: Step)
    requires Inv(s) && Enabled(s, a) && s.link.status == Disconnecting
    ensures Do(s, a).link.status in {Disconnecting, Disconnected}
  {
    hide Inv, CoreOk, ReadOn, Append, ConnFail, DrainAll, Move, Erase, Defer, FreeAll, FreeId, PingPrinted, Add, DoSend;
    NotGone(s, a);
    ClosingState(s);
    match a
    case Send(h) => Losses.SendStatus(s, h);
    case OnLinkLost(isError) => LostIsDown(s, isError);
    case OnRead(input) =>
      if input.Some? { ReadWhileClosing(s, input.value); }
    case DrainDeferred => DrainKeepsLink(s);
    case _ =>
  }

  lemma LostIsDown(s: State, isError: bool)
    requires Inv(s) && s.ctl.pc == Quiet
    ensures ConnFail(Enter(s), isError).link.status == Disconnected
  {
    hide CoreOk, ConnFail, Exact, LastMark;
    Entered(s);
    ConnFailEnds(Enter(s), isError, {});
  }

  lemma ReadWhileClosing(s: State, b: seq<byte>)
    requires Inv(s) && s.ctl.pc == Quiet && s.link.io == Up && s.link.status == Disconnecting
    ensures ReadOn(Append(Enter(s), b)).link.status in {Disconnecting, Disconnected}
  {
    hide Inv, CoreOk, ReadLoop, ConnFail, Exact, LastMark, Without;
    AppendInv(s, b);
    var t := Append(Enter(s), b);
    PingPointer(t);
    ReadLoopStatus(t);
    CoreReadLoop(t, {});
    var (r, end) := ReadLoop(t);
    var u := if r.pool.pending == [] then ResetTimer(r) else r;
    CoreTimer(r, u, {});
    ConnFailEnds(u, true, {});
  }

  lemma {:induction false} ReadLoopStatus(s: State)
    ensures ReadLoop(s).0.link.status == s.link.status
    decreases |s.link.inbuf|
  {
    hide Framing.NextFrame, BuildResponse, Report, Answer, ReadLoop;
    ReadLoopFlat(s);
    var n := Framing.NextFrame(s.link.inbuf);
    if n.Got? {
      var s1 := Consume(s, n.msg, n.rest);
      match PendingHolder(s.pool, n.msg.id)
      case None => ReadLoopStatus(s1);
      case Some(h) =>
        AnswerKeepsLink(s1, h, n.msg);
        AnswerReportFrame(s1, h, n.msg);
        if s.link.pingTxn != Some(h) { ReadLoopStatus(Report(Answer(s1, h, n.msg), h)); }
    }
  }

  lemma {:induction false} StaysClosing(disablePing: bool, states: seq<State>, steps: seq<Step>, i: nat, j: nat)
    requires Execution(disablePing, states, steps) && i <= j < |states| && states[i].link.status == Disconnecting
    requires forall k :: i <= k <= j ==> states[k].link.status != Disconnected
    ensures states[j].link.status == Disconnecting
    decreases j
  {
    hide Inv, Do, Enabled;
    if i < j {
      StaysClosing(disablePing, states, steps, i, j - 1);
      InvAlways(disablePing, states, steps, j - 1);
      assert Enabled(states[j - 1], steps[j - 1]);
      ClosingSteps(states[j - 1], steps[j - 1]);
    }
  }

  /** After a disconnect of a connected connection, the first step that brings it down,
      whatever falls between, reports CONN_DISCONNECT last. */
  lemma DisconnectIsReported(disablePing: bool, states: seq<State>, steps: seq<Step>, i: nat, j: nat)
    requires Execution(disablePing, states, steps) && i < j < |steps|
    requires steps[i] == Disconnect && states[i].link.status == Connected
    requires states[j + 1].link.status == Disconnected
    requires forall k :: i < k <= j ==> states[k].link.status != Disconnected
    ensures var log := states[j + 1].hist.log; log != [] && LastMark(log) == Queues(ConnDisconnect)
  {
    assert |states| == |steps| + 1;
    hide Execution, LastMark;
    DisconnectMeans(disablePing, states, steps, i);
    StaysClosing(disablePing, states, steps, i + 1, j);
    RequestedDisconnect(disablePing, states, steps, j);
  }
}
