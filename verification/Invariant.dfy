/** The whole invariant of the engine: the core, the coupling of connection
    status, I/O object, timer and queues, the ping, and the control state. */
module Invariant {
  import opened Bytes
  import opened Pool
  import opened Engine
  import opened Traces
  import opened Core

  /** Pings out of every queue: on the deferred list, or about to go there. */
  function Away(s: State): set<Handle> {
    (set h | h in s.pool.delayRm) + (if s.ctl.pc.Cleanup? && s.link.pingTxn.Some? then {s.link.pingTxn.value} else {})
  }

  predicate Cleaning(pc: Pc) {
    pc.Cleanup? || pc.Cleaned?
  }

  /** Status, I/O object, buffers, timer and queues fit together. */
  predicate Coupled(l: Link, ready: seq<Handle>, pending: seq<Handle>, pc: Pc) {
    && (l.io == NoIo <==> l.status == Disconnected)
    && (l.io == Opening ==> l.status == Connecting)
    && (Cleaning(pc) ==> l.status == Connecting && l.io == Up)
    && match l.status
       case Disconnected => l.outbuf == [] && l.inbuf == [] && l.timer == NoTimer && pending == []
       case Connecting => l.io == Opening ==> l.outbuf == [] && l.inbuf == [] && l.timer == NoTimer && pending == []
       case Connected => ready == [] && (l.timer == NoTimer <==> l.idleTimeout == 0) && (l.timer == Running ==> pending == [])
       case Disconnecting => true
       case IdleTimeout => pending == [] && l.timer == NoTimer
  }

  /** Transaction `h` is the live ping of this connection attempt. */
  predicate PingIs(txns: map<Handle, Txn>, delayRm: seq<Handle>, h: Handle) {
    h in txns && txns[h].ping && h !in delayRm && txns[h].fate != Lost
  }

  /** Connected at the I/O level but not yet usable: the ping is outstanding, or
      the handler is deleting it. */
  predicate Pinging(l: Link, txns: map<Handle, Txn>, pending: seq<Handle>, delayRm: seq<Handle>, pc: Pc) {
    if l.disablePing then
      (pc == Cleanup(FromConnected) || pc == Cleaned(FromConnected)) && pending == [] && l.timer == NoTimer
    else
      && l.pingTxn.Some?
      && var h := l.pingTxn.value;
         if pc.Cleaned? then pc.k != FromConnected && pending == [] && l.timer == NoTimer
         else if pc.Cleanup? then
           && pc.k != FromConnected && pending == [] && l.timer == NoTimer && PingIs(txns, delayRm, h)
           && (pc.k == FromRead ==> txns[h].status == Status.Done)
         else PingIs(txns, delayRm, h) && pending == [h] && l.timer == Running
  }

  predicate NoPings(txns: map<Handle, Txn>, pending: seq<Handle>) {
    forall h :: h in pending && h in txns ==> !txns[h].ping
  }

  predicate PingOk(l: Link, txns: map<Handle, Txn>, pending: seq<Handle>, delayRm: seq<Handle>, next: Handle, pc: Pc) {
    && (l.disablePing ==> l.pingTxn == None)
    && (l.pingTxn.Some? ==> l.pingTxn.value < next && (l.pingTxn.value in txns ==> txns[l.pingTxn.value].ping))
    && (if l.status == Connecting && l.io == Up then Pinging(l, txns, pending, delayRm, pc) else NoPings(txns, pending))
  }

  predicate Replied(replies: seq<Reply>, pr: Print) {
    exists i :: 0 <= i < |replies| && replies[i].trans == pr.trans && replies[i].msg.id == pr.msg.id
  }

  /** With pings on, the first frame of a connection is the ping, nothing else is
      printed before its reply was consumed, and no other ping follows. */
  predicate FirstOk(l: Link, printed: seq<Print>, mark: nat, replies: seq<Reply>, pc: Pc) {
    && mark <= |printed|
    && (l.io != Up ==> mark == |printed|)
    && (forall i :: mark < i < |printed| ==> !printed[i].ping)
    && (l.disablePing && mark < |printed| ==> !printed[mark].ping)
    && (l.disablePing && l.io == Up && l.status == Connecting ==> mark == |printed|)
    && (!l.disablePing && l.io == Up ==>
          && mark < |printed| && printed[mark].ping
          && (l.status == Connecting ==> |printed| == mark + 1 && l.pingTxn == Some(printed[mark].trans))
          && (l.status != Connecting || pc == Cleanup(FromRead) || pc == Cleaned(FromRead) ==> Replied(replies, printed[mark])))
  }

  /** The connection events queued so far and the status agree. */
  function StatusPhase(st: ConnStatus): LinkPhase {
    match st
    case Disconnected => Down
    case Connecting => Trying
    case _ => Live
  }

  predicate LogMatches(st: ConnStatus, log: seq<Mark>) {
    LinkPhaseOf(log) == StatusPhase(st)
  }

  predicate CtlOk(c: Control, delayRm: seq<Handle>) {
    && (c.pc == Quiet ==> !c.inUse && c.batch == [] && !c.destroy && delayRm == [])
    && (Cleaning(c.pc) || c.pc == Deliver || c.pc == Callback ==> c.inUse)
    && (c.pc.Leave? || c.pc == Last ==> !c.inUse && c.batch == [] && delayRm == [])
  }

  /** Delivered events, then those still in the batch, are those queued; only a
      destroy request drops the rest of a batch, and then no event follows. */
  predicate DeliveredOk(c: Control, delivered: seq<Event>, log: seq<Mark>) {
    || delivered + c.batch == Emitted(log)
    || (c.destroy && c.batch == [] && delivered <= Emitted(log) && (c.pc == Deliver || c.pc.Leave? || c.pc == Last || c.pc == Gone))
  }

  /** What holds while the connection object exists. */
  predicate Alive(s: State) {
    && Coupled(s.link, s.pool.ready, s.pool.pending, s.ctl.pc)
    && PingOk(s.link, s.pool.txns, s.pool.pending, s.pool.delayRm, s.pool.next, s.ctl.pc)
    && FirstOk(s.link, s.hist.printed, s.hist.mark, s.hist.replies, s.ctl.pc)
    && LogMatches(s.link.status, s.hist.log)
    && CtlOk(s.ctl, s.pool.delayRm)
  }

  ghost predicate Inv(s: State) {
    && CoreOk(s, Away(s))
    && DeliveredOk(s.ctl, s.hist.delivered, s.hist.log)
    && (s.ctl.pc == Gone ==> s.pool.txns == map[] && s.ctl.batch == [] && !s.ctl.inUse)
    && (s.ctl.pc != Gone ==> Alive(s))
  }

  lemma InitPool()
    ensures PoolOk(EMPTY, {})
  {
  }

  lemma InitCore(disablePing: bool)
    ensures CoreOk(Init(disablePing), {})
  {
    InitPool();
    hide PoolOk;
    var s := Init(disablePing);
    assert s.hist.printed[s.hist.mark..] == [];
  }

  lemma InitInv(disablePing: bool)
    ensures Inv(Init(disablePing))
  {
    InitCore(disablePing);
    hide CoreOk;
    assert Away(Init(disablePing)) == {};
  }
}
