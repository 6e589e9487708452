/** Every step of the engine keeps the invariant. */
module Steps {
  import opened Bytes
  import opened Pool
  import opened Engine
  import opened Traces
  import opened Core
  import opened CoreMoves
  import opened Effects
  import opened Invariant
  import KeyValue

  lemma InvParts(s: State)
    requires Inv(s)
    ensures CoreOk(s, Away(s))
    ensures NoDup(s.pool.ready) && NoDup(s.pool.pending) && NoDup(s.pool.delayRm)
    ensures s.pool.next !in s.pool.txns
    ensures forall h :: h in s.pool.ready ==> h in s.pool.txns && s.pool.txns[h].status == Status.Ready
    ensures forall h :: h in s.pool.pending ==> h in s.pool.txns && s.pool.txns[h].status == Status.Pending
    ensures forall h :: h in s.pool.delayRm ==> h in s.pool.txns
    ensures forall h :: h in s.pool.txns ==> TxnOk(s.pool.txns[h]) && h < s.pool.next
  {
    hide PrintsOk, InSendOrder, WireOk, PastOk, InputOk, TraceOk, BatchOk, RepliesOk, TxnOk, DeliveredOk, Alive, Away;
    ReadyAreOld(s.pool, Away(s));
    forall h | h in s.pool.txns ensures TxnOk(s.pool.txns[h]) {
      TxnFacts(s.pool, Away(s), h);
    }
  }

  // ----- calls that change one transaction -----

  lemma StepNew(s: State, id: nat)
    requires Inv(s) && Enabled(s, Step.New(id))
    ensures Inv(Do(s, Step.New(id)))
  {
    hide CoreOk, DeliveredOk, Coupled, FirstOk, LogMatches, CtlOk, PingOk, FreeId;
    InvParts(s);
    CoreNew(s, id, Away(s));
    PingAdd(s.link, s.pool.txns, s.pool.pending, s.pool.delayRm, s.pool.next, s.ctl.pc, Blank(id));
  }

  lemma PingAdd(l: Link, txns: map<Handle, Txn>, pending: seq<Handle>, delayRm: seq<Handle>, next: Handle, pc: Pc, t: Txn)
    requires PingOk(l, txns, pending, delayRm, next, pc) && next !in txns && !t.ping
    ensures PingOk(l, txns[next := t], pending, delayRm, next + 1, pc)
  {
  }

  /** A change to a transaction that is not a ping, or not of what a ping is. */
  lemma PingEdit(l: Link, txns: map<Handle, Txn>, pending: seq<Handle>, delayRm: seq<Handle>, next: Handle, pc: Pc, h: Handle, t: Txn)
    requires PingOk(l, txns, pending, delayRm, next, pc) && h in txns
    requires t.ping == txns[h].ping && t.status == txns[h].status && t.fate == txns[h].fate
    ensures PingOk(l, txns[h := t], pending, delayRm, next, pc)
  {
  }

  lemma StepEdit(s: State, h: Handle, t: Txn)
    requires Inv(s) && h in s.pool.txns && s.ctl.pc != Gone
    requires SameTxn(s.pool.txns[h], t) && TxnOk(t) && t.status == s.pool.txns[h].status
    requires t.order == s.pool.txns[h].order && t.fate == s.pool.txns[h].fate
    requires t.timer ==> s.pool.txns[h].timer
    ensures Inv(WithPool(s, Edit(s.pool, h, t)))
  {
    hide CoreOk, DeliveredOk, Coupled, FirstOk, LogMatches, CtlOk, PingOk, TxnOk;
    CoreEdit(s, h, t, Away(s));
    PingEdit(s.link, s.pool.txns, s.pool.pending, s.pool.delayRm, s.pool.next, s.ctl.pc, h, t);
  }

  lemma StepSetParam(s: State, h: Handle, key: seq<byte>, value: seq<byte>)
    requires Inv(s) && s.ctl.pc != Gone && h in s.pool.txns
    ensures Inv(DoSetParam(s, h, key, value))
  {
    hide Inv, KeyValue.SetPair, TxnOk, Edit;
    var t := s.pool.txns[h];
    if t.status == Status.New {
      var r := KeyValue.SetPair(t.request, key, value);
      InvParts(s);
      NewRequestOk(t, r);
      StepEdit(s, h, t.(request := r));
    }
  }

  lemma NewRequestOk(t: Txn, r: seq<KeyValue.Pair>)
    requires TxnOk(t) && t.status == Status.New
    ensures TxnOk(t.(request := r))
  {
  }

  lemma StepSetTimeout(s: State, h: Handle, secs: nat)
    requires Inv(s) && s.ctl.pc != Gone && h in s.pool.txns
    ensures Inv(DoSetTimeout(s, h, secs))
  {
    hide Inv;
    InvParts(s);
    var t := s.pool.txns[h];
    if t.status == Status.New {
      StepEdit(s, h, t.(timeout := secs));
    }
  }

  // ----- send -----

  lemma PingMove(l: Link, txns: map<Handle, Txn>, pending: seq<Handle>, delayRm: seq<Handle>, next: Handle, pc: Pc, h: Handle, t: Txn)
    requires PingOk(l, txns, pending, delayRm, next, pc) && h in txns && !txns[h].ping && !t.ping
    ensures PingOk(l, txns[h := t], pending, delayRm, next, pc)
  {
  }

  /** The promoted transactions are not pings, so they change nothing about pings. */
  lemma PingPromoted(l: Link, s: State)
    requires PingOk(l, s.pool.txns, s.pool.pending, s.pool.delayRm, s.pool.next, s.ctl.pc)
    requires forall h :: h in s.pool.ready ==> h in s.pool.txns && !s.pool.txns[h].ping
    requires l.status == Connected
    ensures PingOk(l, Promoted(s).pool.txns, Promoted(s).pool.pending, s.pool.delayRm, s.pool.next, s.ctl.pc)
  {
    hide KeyValue.Payload, Stream, PrintsOf;
  }

  lemma {:induction false} PrintsOfPayments(s: State, q: seq<Handle>)
    requires forall h :: h in q ==> h in s.pool.txns && !s.pool.txns[h].ping
    ensures |PrintsOf(s, q)| == |q|
    ensures forall i :: 0 <= i < |q| ==> PrintsOf(s, q)[i] == PrintOf(s, q[i])
    ensures forall i :: 0 <= i < |q| ==> !PrintsOf(s, q)[i].ping
    decreases |q|
  {
    hide KeyValue.Payload;
    if q != [] {
      PrintsOfPayments(s, q[1..]);
    }
  }

  lemma FirstPrints(l: Link, printed: seq<Print>, mark: nat, replies: seq<Reply>, pc: Pc, ps: seq<Print>)
    requires FirstOk(l, printed, mark, replies, pc) && l.io == Up && l.status != Connecting
    requires forall i :: 0 <= i < |ps| ==> !ps[i].ping
    ensures FirstOk(l, printed + ps, mark, replies, pc)
  {
    hide Replied;
  }

  /** Everything of the invariant except that a connected connection has nothing
      ready: the state between an accepted send and its messages going out. */
  ghost predicate NearlyInv(s: State) {
    && CoreOk(s, Away(s))
    && DeliveredOk(s.ctl, s.hist.delivered, s.hist.log)
    && s.ctl.pc != Gone
    && Coupled(s.link, [], s.pool.pending, s.ctl.pc)
    && PingOk(s.link, s.pool.txns, s.pool.pending, s.pool.delayRm, s.pool.next, s.ctl.pc)
    && FirstOk(s.link, s.hist.printed, s.hist.mark, s.hist.replies, s.ctl.pc)
    && LogMatches(s.link.status, s.hist.log)
    && CtlOk(s.ctl, s.pool.delayRm)
  }

  lemma ReadyNotPings(s: State, away: set<Handle>)
    requires CoreOk(s, away)
    ensures forall h :: h in s.pool.ready ==> h in s.pool.txns && !s.pool.txns[h].ping
  {
    hide PoolOk, PrintsOk, InSendOrder, WireOk, PastOk, InputOk, TraceOk, BatchOk, RepliesOk;
    QueueFacts(s, away);
    forall h | h in s.pool.ready ensures !s.pool.txns[h].ping {
      TxnFacts(s.pool, away, h);
    }
  }

  /** Sending what is ready completes the invariant. */
  lemma SendCompletes(s: State)
    requires NearlyInv(s)
    ensures Inv(SendMessages(s))
  {
    hide CoreOk, DeliveredOk, PingOk, FirstOk, LogMatches, CtlOk, Promoted, PromoteAll;
    CoreSendMessages(s, Away(s));
    if s.link.status == Connected {
      PromoteAllIs(s, Away(s));
      ReadyNotPings(s, Away(s));
      PrintsOfPayments(s, s.pool.ready);
      PromotedParts(s);
      var r := Promoted(s);
      PingPromoted(s.link, s);
      FirstPrints(s.link, s.hist.printed, s.hist.mark, s.hist.replies, s.ctl.pc, PrintsOf(s, s.pool.ready));
      var l := SendMessages(s).link;
      assert PingOk(l, r.pool.txns, r.pool.pending, r.pool.delayRm, r.pool.next, r.ctl.pc) by {
        PingLink(s.link, l, r.pool.txns, r.pool.pending, r.pool.delayRm, r.pool.next, r.ctl.pc);
      }
      assert FirstOk(l, r.hist.printed, r.hist.mark, r.hist.replies, r.ctl.pc) by {
        FirstLink(s.link, l, r.hist.printed, r.hist.mark, r.hist.replies, r.ctl.pc);
      }
    }
  }

  lemma PromotedParts(s: State)
    ensures var r := Promoted(s);
            && r.pool.ready == [] && r.pool.pending == s.pool.pending + s.pool.ready
            && r.pool.delayRm == s.pool.delayRm && r.pool.next == s.pool.next
            && r.link == s.link.(outbuf := r.link.outbuf) && r.ctl == s.ctl
            && r.hist == s.hist.(printed := s.hist.printed + PrintsOf(s, s.pool.ready))
  {
    hide PrintsOf, Stream, SentAll;
  }

  /** Ping facts of a usable connection do not look at buffers and timer. */
  lemma PingLink(l: Link, k: Link, txns: map<Handle, Txn>, pending: seq<Handle>, delayRm: seq<Handle>, next: Handle, pc: Pc)
    requires PingOk(l, txns, pending, delayRm, next, pc)
    requires k.status == l.status && k.io == l.io && k.pingTxn == l.pingTxn && k.disablePing == l.disablePing
    requires !(l.status == Connecting && l.io == Up) || k.timer == l.timer
    ensures PingOk(k, txns, pending, delayRm, next, pc)
  {
    hide PingIs, NoPings;
  }

  lemma FirstLink(l: Link, k: Link, printed: seq<Print>, mark: nat, replies: seq<Reply>, pc: Pc)
    requires FirstOk(l, printed, mark, replies, pc)
    requires k.status == l.status && k.io == l.io && k.pingTxn == l.pingTxn && k.disablePing == l.disablePing
    ensures FirstOk(k, printed, mark, replies, pc)
  {
    hide Replied;
  }

  lemma StepSend(s: State, h: Handle)
    requires Inv(s) && Enabled(s, Step.Send(h))
    ensures Inv(Do(s, Step.Send(h)))
  {
    hide CoreOk, DeliveredOk, PingOk, FirstOk, LogMatches, CtlOk;
    if Sendable(s.pool.txns[h]) {
      InvParts(s);
      CoreMakeReady(s, h, Away(s));
      var t := Queued(s.pool.txns[h], s.hist.sends);
      hide TxnOk;
      MoveFrame(s.pool, h, t);
      hide Move;
      assert Queue(s.pool, Status.Pending) == s.pool.pending;
      assert !s.pool.txns[h].ping by { NewIsNotPing(s, h); }
      PingMove(s.link, s.pool.txns, s.pool.pending, s.pool.delayRm, s.pool.next, s.ctl.pc, h, t);
      assert NearlyInv(MakeReady(s, h));
      hide NearlyInv, SendMessages;
      SendCompletes(MakeReady(s, h));
    }
  }

  lemma NewIsNotPing(s: State, h: Handle)
    requires h in s.pool.txns && TxnOk(s.pool.txns[h]) && s.pool.txns[h].status == Status.New
    ensures !s.pool.txns[h].ping
  {
  }

  // ----- delete -----

  /** What erasing does to the parts of the pool. */
  lemma EraseFrame(p: Pool, h: Handle, away: set<Handle>)
    requires PoolOk(p, away) && h in p.txns
    ensures var r := Erase(p, h);
            && r.txns == p.txns - {h} && r.delayRm == p.delayRm && r.next == p.next
            && r.ready == Without(p.ready, h) && r.pending == Without(p.pending, h)
            && r.freed == p.freed + [h]
  {
    hide NoDup, Without;
    ReadyAreOld(p, away);
  }

  lemma CoupledErase(l: Link, ready: seq<Handle>, pending: seq<Handle>, pc: Pc, h: Handle)
    requires Coupled(l, ready, pending, pc)
    ensures Coupled(l, Without(ready, h), Without(pending, h), pc)
    ensures l.status == Connected && Without(pending, h) == [] && l.timer != NoTimer
            ==> Coupled(l.(timer := Running), Without(ready, h), [], pc)
  {
    hide Without;
  }

  lemma PingErase(l: Link, txns: map<Handle, Txn>, pending: seq<Handle>, delayRm: seq<Handle>, next: Handle, pc: Pc, h: Handle)
    requires PingOk(l, txns, pending, delayRm, next, pc) && h in txns && (txns[h].ping ==> txns[h].fate == Lost)
    requires !Cleaning(pc) && (forall g :: g in pending ==> g in txns)
    ensures PingOk(l, txns - {h}, Without(pending, h), delayRm, next, pc)
  {
    hide Without;
    if l.status == Connecting && l.io == Up {
      assert h !in pending;
    }
  }

  lemma PingDefer(l: Link, txns: map<Handle, Txn>, pending: seq<Handle>, delayRm: seq<Handle>, next: Handle, pc: Pc, h: Handle)
    requires PingOk(l, txns, pending, delayRm, next, pc) && h in txns && (txns[h].ping ==> txns[h].fate == Lost)
    ensures PingOk(l, txns, pending, delayRm + [h], next, pc)
  {
  }

  lemma StepDelete(s: State, h: Handle)
    requires Inv(s) && Enabled(s, Step.Delete(h))
    ensures Inv(Do(s, Step.Delete(h)))
  {
    if s.ctl.inUse {
      DeleteDeferred(s, h);
    } else {
      DeleteAtOnce(s, h);
    }
  }

  lemma DeleteDeferred(s: State, h: Handle)
    requires Inv(s) && s.ctl.pc != Gone && Usable(s, h) && s.ctl.inUse
    ensures Inv(WithPool(s, Defer(s.pool, h)))
  {
    hide CoreOk, DeliveredOk, PingOk, FirstOk, LogMatches, Coupled, TxnOk;
    InvParts(s);
    CoreDefer(s, h, Away(s));
    var r := WithPool(s, Defer(s.pool, h));
    CoreAway(r, Away(s), Away(r));
    var t := s.pool.txns[h].(timer := false);
    PingEdit(s.link, s.pool.txns, s.pool.pending, s.pool.delayRm, s.pool.next, s.ctl.pc, h, t);
    PingDefer(s.link, s.pool.txns[h := t], s.pool.pending, s.pool.delayRm, s.pool.next, s.ctl.pc, h);
  }

  lemma DeleteAtOnce(s: State, h: Handle)
    requires Inv(s) && s.ctl.pc != Gone && Usable(s, h) && !s.ctl.inUse
    ensures Inv(DeleteNow(s, Erase(KillTimer(s.pool, h), h)))
  {
    hide CoreOk, DeliveredOk, PingOk, FirstOk, LogMatches, Coupled, TxnOk, Erase, Without;
    InvParts(s);
    var s1 := WithPool(s, KillTimer(s.pool, h));
    StepEdit(s, h, s.pool.txns[h].(timer := false)) by { TimerOff(s, h); }
    InvParts(s1);
    EraseAtOnce(s1, h);
  }

  lemma TimerOff(s: State, h: Handle)
    requires h in s.pool.txns && TxnOk(s.pool.txns[h])
    ensures TxnOk(s.pool.txns[h].(timer := false))
  {
    hide BuildResponse, REFUSAL;
  }

  lemma EraseAtOnce(s: State, h: Handle)
    requires Inv(s) && s.ctl.pc != Gone && Usable(s, h) && !s.ctl.inUse
    ensures Inv(DeleteNow(s, Erase(s.pool, h)))
  {
    hide CoreOk, DeliveredOk, PingOk, FirstOk, LogMatches, Coupled, TxnOk, Erase, Without;
    InvParts(s);
    var away := Away(s);
    assert away == {};
    CoreErase(s, h, away);
    EraseFrame(s.pool, h, away) by { PoolPart(s, away); }
    CoupledErase(s.link, s.pool.ready, s.pool.pending, s.ctl.pc, h);
    PingErase(s.link, s.pool.txns, s.pool.pending, s.pool.delayRm, s.pool.next, s.ctl.pc, h);
    var p := Erase(s.pool, h);
    var r := DeleteNow(s, p);
    assert away - {h} == {};
    CoreTimer(WithPool(s, p), r, {});
    PingLinkTimer(s, r, p);
    FirstLink(s.link, r.link, s.hist.printed, s.hist.mark, s.hist.replies, s.ctl.pc);
    assert Away(r) == {};
  }

  lemma PoolPart(s: State, away: set<Handle>)
    requires CoreOk(s, away)
    ensures PoolOk(s.pool, away)
  {
  }

  /** The core does not look at status, timer, ping pointer and control state. */
  lemma CoreTimer(s: State, r: State, away: set<Handle>)
    requires CoreOk(s, away)
    requires r.pool == s.pool && r.hist == s.hist && r.ctl.batch == s.ctl.batch
    requires r.link.outbuf == s.link.outbuf && r.link.inbuf == s.link.inbuf
    ensures CoreOk(r, away)
  {
    hide PoolOk, PrintsOk, InSendOrder, WireOk, PastOk, InputOk, TraceOk, BatchOk, RepliesOk;
  }

  lemma PingLinkTimer(s: State, r: State, p: Pool)
    requires PingOk(s.link, p.txns, p.pending, p.delayRm, p.next, s.ctl.pc)
    requires r.link == s.link || (s.link.status == Connected && r.link == s.link.(timer := Running))
    ensures PingOk(r.link, p.txns, p.pending, p.delayRm, p.next, s.ctl.pc)
  {
    PingLink(s.link, r.link, p.txns, p.pending, p.delayRm, p.next, s.ctl.pc);
  }

  // ----- connect, disconnect, idle timeout, destroy -----

  /** Starting an attempt on a disconnected link. */
  lemma LinkAttempt(l: Link, p: Pool, h: History, pc: Pc)
    requires l.io == NoIo
    requires Coupled(l, p.ready, p.pending, pc) && PingOk(l, p.txns, p.pending, p.delayRm, p.next, pc)
    requires FirstOk(l, h.printed, h.mark, h.replies, pc)
    ensures var k := l.(io := Opening, status := Connecting);
            && Coupled(k, p.ready, p.pending, pc)
            && PingOk(k, p.txns, p.pending, p.delayRm, p.next, pc)
            && FirstOk(k, h.printed, h.mark, h.replies, pc)
  {
    hide Replied, NoPings, Pinging;
  }

  lemma CoreAttempt(s: State, r: State, away: set<Handle>)
    requires CoreOk(s, away) && r.pool == s.pool && r.ctl == s.ctl && r.hist == s.hist.(log := s.hist.log + [Attempt])
    requires r.link.outbuf == s.link.outbuf && r.link.inbuf == s.link.inbuf
    ensures CoreOk(r, away)
  {
    hide PoolOk, PrintsOk, InSendOrder, WireOk, PastOk, InputOk, BatchOk, RepliesOk, TraceOk;
    TraceMark(s.pool.txns, s.pool.next, s.hist.log, Attempt);
  }

  lemma LogAttempt(st: ConnStatus, log: seq<Mark>)
    requires LogMatches(st, log) && st == Disconnected
    ensures LogMatches(Connecting, log + [Attempt])
  {
    LinkSnoc(log, Attempt);
  }

  lemma StepConnect(s: State, ok: bool)
    requires Inv(s) && s.ctl.pc != Gone
    ensures Inv(DoConnect(s, ok))
  {
    hide CoreOk, DeliveredOk, CtlOk, FirstOk, PingOk, LogMatches;
    if s.link.io == NoIo && ok {
      var r := DoConnect(s, ok);
      CoreAttempt(s, r, Away(s));
      LogAttempt(s.link.status, s.hist.log);
      DeliveredSame(s.ctl, s.hist.delivered, s.hist.log);
      LinkAttempt(s.link, s.pool, s.hist, s.ctl.pc);
      hide Coupled;
    }
  }

  lemma DeliveredSame(c: Control, delivered: seq<Event>, log: seq<Mark>)
    requires DeliveredOk(c, delivered, log)
    ensures DeliveredOk(c, delivered, log + [Attempt])
  {
    EmittedSnoc(log, Attempt);
  }

  lemma StepDisconnect(s: State)
    requires Inv(s) && s.ctl.pc != Gone
    ensures Inv(DoDisconnect(s))
  {
    hide CoreOk, DeliveredOk, CtlOk, Replied, PingIs;
    CoreTimer(s, DoDisconnect(s), Away(s));
  }

  lemma StepSetIdleTimeout(s: State, secs: nat)
    requires Inv(s) && s.ctl.pc != Gone
    ensures Inv(DoSetIdleTimeout(s, secs))
  {
    hide CoreOk, DeliveredOk, CtlOk, Replied, PingIs;
    CoreTimer(s, DoSetIdleTimeout(s, secs), Away(s));
  }

  /** Destroying frees every transaction still held, each for the first time. */
  lemma FreeAllOk(p: Pool)
    requires PoolOk(p, {}) && p.delayRm == []
    ensures PoolOk(FreeAll(p), {})
  {
    hide Indexed, TxnOk, NoDup;
    QueuedOnce(p, {});
    var q := AllQueued(p);
    assert FreeAll(p).freed == p.freed + q;
    NoDupConcat(p.freed, q);
    assert forall h :: h in p.txns ==> h in q;
    assert NoDup<Handle>([]) by { NoDupNone(); }
    assert Indexed(map[], map[]) by { IndexedNone(); }
  }

  lemma NoDupNone()
    ensures NoDup<Handle>([])
  {
  }

  lemma IndexedNone()
    ensures Indexed(map[], map[])
  {
  }

  lemma DemolishInv(s: State)
    requires Inv(s) && s.ctl.pc != Gone && !s.ctl.inUse
    ensures Inv(Demolish(s))
  {
    hide PoolOk, PrintsOk, Orders, Paid, Sorted, WireOk, PastOk, InputOk, TraceOk, Coupled, PingOk, FirstOk, LogMatches;
    assert s.pool.delayRm == [] && s.ctl.batch == [];
    assert Away(s) == {};
    var r := Demolish(s);
    assert Away(r) == {};
    FreeAllOk(s.pool);
    PrintsNone(s.pool.txns, s.pool.next, s.hist.printed);
    TraceNone(s.pool.txns, s.pool.next, s.hist.log);
    TrackNone(s.pool.txns, s.pool.ready, s.hist.printed, s.hist.sends);
  }

  lemma PrintsNone(txns: map<Handle, Txn>, next: Handle, printed: seq<Print>)
    requires PrintsOk(txns, next, printed)
    ensures PrintsOk(map[], next, printed)
  {
  }

  lemma TraceNone(txns: map<Handle, Txn>, next: Handle, log: seq<Mark>)
    requires TraceOk(txns, next, log)
    ensures TraceOk(map[], next, log)
  {
  }

  lemma TrackNone(txns: map<Handle, Txn>, ready: seq<Handle>, printed: seq<Print>, sends: nat)
    requires InSendOrder(txns, ready, printed, sends)
    ensures InSendOrder(map[], [], printed, sends)
  {
    var track := Paid(printed) + Orders(txns, ready);
    assert forall i :: 0 <= i < |Paid(printed)| ==> Paid(printed)[i] == track[i];
    assert Paid(printed) + Orders(map[], []) == Paid(printed);
  }

  lemma StepDestroy(s: State)
    requires Inv(s) && Enabled(s, Destroy)
    ensures Inv(Do(s, Destroy))
  {
    hide CoreOk, Coupled, PingOk, FirstOk, LogMatches, Demolish;
    if s.ctl.inUse {
      var r := DoDestroy(s);
      CoreTimer(s, r, Away(s));
    } else {
      DemolishInv(s);
    }
  }
}
