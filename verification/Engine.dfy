/** The connection engine as a state machine. One step is one section of code
    that runs under the connection lock; the event handler drops that lock while
    it deletes the ping and around every user callback, so it is several steps,
    and calls from other threads or from callbacks fall between them. */
module Engine {
  import opened Bytes
  import opened Pool
  import KeyValue
  import Framing

  // ----- state -----

  datatype ConnStatus = Connecting | Connected | Disconnecting | IdleTimeout | Disconnected

  /** The I/O object: absent, created, or past its connected event. */
  datatype Io = NoIo | Opening | Up

  /** The connection timer; it times the ping first and idleness later. */
  datatype Timer = NoTimer | Stopped | Running

  datatype Event =
    | ConnConnected
    | ConnDisconnect
    | ConnError
    | TransDone(trans: Handle)
    | TransError(trans: Handle)
    | TransNoConnect(trans: Handle)
    | TransTimeout(trans: Handle)

  datatype Link = Link(status: ConnStatus, io: Io, timer: Timer, outbuf: seq<byte>, inbuf: seq<byte>,
                       pingTxn: Option<Handle>, idleTimeout: nat, disablePing: bool)

  /** What the handler was doing when it dropped the lock to delete the ping. */
  datatype Resume = FromConnected | FromRead | FromTimeout

  /** Where the event handler stands:
      - `Quiet`: not running;
      - `Cleanup`, `Cleaned`: lock dropped, ping about to be deleted, ping deleted;
      - `Deliver`: about to take the next event of the batch;
      - `Callback`: the user callback for the event just taken;
      - `Leave`: events done, deferred deletions done, perhaps reconnecting;
      - `Last`: about to look whether the connection is to be destroyed;
      - `Gone`: the connection is freed. */
  datatype Pc = Quiet | Cleanup(k: Resume) | Cleaned(k: Resume) | Deliver | Callback | Leave(reconnect: bool) | Last | Gone

  datatype Control = Control(pc: Pc, inUse: bool, destroy: bool, batch: seq<Event>)

  /** One frame put into the output buffer. */
  datatype Print = Print(trans: Handle, msg: Framing.Message, ping: bool, order: nat)

  datatype Reply = Reply(trans: Handle, msg: Framing.Message)

  /** One entry of the log: a connection attempt, or an event queued for delivery. */
  datatype Mark = Attempt | Queues(event: Event)

  /** An earlier connection: which prints were its own, the bytes that left, and the
      frames that were taken off its input. */
  datatype Past = Past(lo: nat, hi: nat, wire: seq<byte>, frames: seq<Framing.Message>)

  /** What an observer has seen so far. `printed` runs over all connections, the
      current one from `mark` on; `wire`, `input` and `frames` are the current
      connection's bytes written, bytes read and frames taken off; `homes` says for
      each reply how many connections there had been before. */
  datatype History = History(printed: seq<Print>, mark: nat, wire: seq<byte>, past: seq<Past>, sends: nat,
                             input: seq<byte>, frames: seq<Framing.Message>, replies: seq<Reply>, homes: seq<nat>,
                             log: seq<Mark>, delivered: seq<Event>)

  datatype State = State(pool: Pool, link: Link, ctl: Control, hist: History)

  function Init(disablePing: bool): State {
    State(EMPTY,
          Link(Disconnected, NoIo, NoTimer, [], [], None, 0, disablePing),
          Control(Quiet, false, false, []),
          History([], 0, [], [], 0, [], [], [], [], [], []))
  }

  // ----- small moves -----

  function WithPool(s: State, p: Pool): State {
    s.(pool := p)
  }

  function Emit(s: State, e: Event): State {
    s.(ctl := s.ctl.(batch := s.ctl.batch + [e]), hist := s.hist.(log := s.hist.log + [Queues(e)]))
  }

  function SetTimer(s: State, t: Timer): State {
    s.(link := s.link.(timer := t))
  }

  /** Restarting a timer that does not exist does nothing. */
  function ResetTimer(s: State): State {
    if s.link.timer == NoTimer then s else SetTimer(s, Running)
  }

  function StopTimer(s: State): State {
    if s.link.timer == NoTimer then s else SetTimer(s, Stopped)
  }

  function Goto(s: State, pc: Pc): State {
    s.(ctl := s.ctl.(pc := pc))
  }

  /** Puts the frame of transaction `h` into the output buffer. */
  function Structure(s: State, h: Handle): State
    requires h in s.pool.txns
  {
    var t := s.pool.txns[h];
    var m := Framing.Message(t.id, KeyValue.Payload(t.request));
    s.(link := s.link.(outbuf := s.link.outbuf + Framing.Frame(m.id, m.data)),
       hist := s.hist.(printed := s.hist.printed + [Print(h, m, t.ping, t.order)]))
  }

  /** The first `n` bytes of the output buffer leave. */
  function WriteOut(s: State, n: nat): State
    requires n <= |s.link.outbuf|
  {
    s.(link := s.link.(outbuf := s.link.outbuf[n..]), hist := s.hist.(wire := s.hist.wire + s.link.outbuf[..n]))
  }

  // ----- sending -----

  /** A queue with a first member to take: the engine's invariant says that this
      is every nonempty queue. */
  predicate HasHead(p: Pool, q: seq<Handle>, st: Status) {
    q != [] && q[0] in p.txns && p.txns[q[0]].status == st
  }

  /** The first ready transaction is printed and becomes pending. */
  function PromoteOne(s: State): (r: State)
    requires HasHead(s.pool, s.pool.ready, Ready)
    ensures |r.pool.ready| < |s.pool.ready|
  {
    var h := s.pool.ready[0];
    WithPool(Structure(s, h), Move(s.pool, h, Sent(s.pool.txns[h])))
  }

  function PromoteAll(s: State): State
    decreases |s.pool.ready|
  {
    if HasHead(s.pool, s.pool.ready, Ready) then PromoteAll(PromoteOne(s)) else s
  }

  /** When connected, everything ready goes out, and the idle timer stops if
      anything is pending. */
  function SendMessages(s: State): State {
    if s.link.status != Connected then s
    else
      var s1 := PromoteAll(s);
      if s1.pool.pending != [] then StopTimer(s1) else s1
  }

  // ----- losing the connection -----

  function TearDown(s: State): State {
    var h := s.hist;
    s.(link := s.link.(status := Disconnected, io := NoIo, timer := NoTimer, outbuf := [], inbuf := []),
       hist := h.(past := h.past + [Past(h.mark, |h.printed|, h.wire, h.frames)], mark := |h.printed|,
                  wire := [], input := [], frames := []))
  }

  function NoConnectAll(s: State, q: seq<Handle>): State
    decreases |q|
  {
    if q == [] then s else NoConnectAll(Emit(s, TransNoConnect(q[0])), q[1..])
  }

  function FailOne(s: State): (r: State)
    requires HasHead(s.pool, s.pool.pending, Pending)
    ensures |r.pool.pending| < |s.pool.pending|
  {
    var h := s.pool.pending[0];
    Emit(WithPool(s, Move(s.pool, h, Finished(s.pool.txns[h], REFUSAL, Lost))), TransError(h))
  }

  function FailAll(s: State): State
    decreases |s.pool.pending|
  {
    if HasHead(s.pool, s.pool.pending, Pending) then FailAll(FailOne(s)) else s
  }

  /** The connection event a failure is reported as. A requested disconnect is
      one even if the I/O layer or the parser called it an error. */
  function FinalEvent(status: ConnStatus, isError: bool): Event {
    if isError && status != Disconnecting && status != IdleTimeout then ConnError else ConnDisconnect
  }

  function ConnFail(s: State, isError: bool): State {
    var s1 := TearDown(s);
    var s2 := if s.link.status == IdleTimeout then s1 else NoConnectAll(s1, s.pool.ready);
    Emit(FailAll(s2), FinalEvent(s.link.status, isError))
  }

  // ----- deleting -----

  /** Remove from queue and index and free; restart the idle timer if that left a
      connected connection without pending transactions. */
  function DeleteNow(s: State, p: Pool): State {
    var s1 := WithPool(s, p);
    if s.link.status == Connected && p.pending == [] then ResetTimer(s1) else s1
  }

  function DrainAll(s: State): State
    decreases |s.pool.delayRm|
  {
    if s.pool.delayRm != [] && s.pool.delayRm[0] in s.pool.txns then DrainAll(DeleteNow(s, DrainHead(s.pool))) else s
  }

  // ----- reading -----

  datatype Parsed = Completed(h: Handle) | Starved | Broken

  /** The pending transaction a reply with this id is for, if any. */
  function PendingHolder(p: Pool, id: nat): Option<Handle> {
    if id in p.idMap && p.idMap[id] in p.txns && p.txns[p.idMap[id]].status == Pending
    then Some(p.idMap[id]) else None
  }

  /** The transaction takes the reply and is done. Its timer is the caller's. */
  function Answer(s: State, h: Handle, m: Framing.Message): (r: State)
    requires h in s.pool.txns
    ensures h in r.pool.txns
  {
    s.(pool := Move(s.pool, h, Settled(s.pool.txns[h], BuildResponse(m.data), Answered(m.data))),
       hist := s.hist.(replies := s.hist.replies + [Reply(h, m)], homes := s.hist.homes + [|s.hist.past|]))
  }

  function Consume(s: State, m: Framing.Message, rest: seq<byte>): State {
    s.(link := s.link.(inbuf := rest), hist := s.hist.(frames := s.hist.frames + [m]))
  }

  /** Takes frames off the input until one completes a transaction. Frames for
      nobody, or for a transaction no longer pending, are dropped. */
  function ParseBuffer(s: State): (r: (State, Parsed))
    ensures r.1.Completed? ==> |r.0.link.inbuf| < |s.link.inbuf| && r.1.h in r.0.pool.txns
    decreases |s.link.inbuf|
  {
    match Framing.NextFrame(s.link.inbuf)
    case NeedMore => (s, Starved)
    case Malformed => (s, Broken)
    case Got(m, rest) =>
      var s1 := Consume(s, m, rest);
      match PendingHolder(s.pool, m.id)
      case None => ParseBuffer(s1)
      case Some(h) => (Answer(s1, h, m), Completed(h))
  }

  datatype ReadEnd = Drained | Failed | PingAnswered

  /** A completed transaction is reported, and its timer killed. */
  function Report(s: State, h: Handle): State
    requires h in s.pool.txns
  {
    var s1 := Emit(s, TransDone(h));
    WithPool(s1, KillTimer(s1.pool, h))
  }

  /** Everything the input buffer holds, up to the reply to the ping. */
  function ReadLoop(s: State): (State, ReadEnd)
    decreases |s.link.inbuf|
  {
    var (s1, r) := ParseBuffer(s);
    match r
    case Starved => (s1, Drained)
    case Broken => (s1, Failed)
    case Completed(h) => if s.link.pingTxn == Some(h) then (s1, PingAnswered) else ReadLoop(Report(s1, h))
  }

  /** After the loop: with nothing pending the timer restarts; a broken stream is
      a connection error. */
  function EndRead(s: State, failed: bool): State {
    var s1 := if s.pool.pending == [] then ResetTimer(s) else s;
    Goto(if failed then ConnFail(s1, true) else s1, Deliver)
  }

  /** The loop and what follows it. */
  function ReadOn(s: State): State {
    var (s1, end) := ReadLoop(s);
    match end
    case Drained => EndRead(s1, false)
    case Failed => EndRead(s1, true)
    case PingAnswered => CleanupTake(s1, FromRead)
  }

  // ----- the ping -----

  /** Kills the timer, takes the ping off the pending queue, drops the lock. */
  function CleanupTake(s: State, k: Resume): State {
    var s1 := Goto(SetTimer(s, NoTimer), Cleanup(k));
    match s.link.pingTxn
    case None => s1
    case Some(h) => WithPool(s1, Pull(s1.pool, Pending, h))
  }

  /** The connection is usable: announce it, send what is ready, create the idle
      timer if one is wanted. */
  function OpenUp(s: State): State {
    var s1 := Emit(s.(link := s.link.(pingTxn := None, status := Connected)), ConnConnected);
    var s2 := SendMessages(s1);
    if s2.link.idleTimeout != 0 then SetTimer(s2, Stopped) else s2
  }

  // ----- steps -----

  datatype Step =
    // calls by the user, from any thread, also from callbacks
    | New(id: nat)
    | SetParam(h: Handle, key: seq<byte>, value: seq<byte>)
    | SetTimeout(h: Handle, secs: nat)
    | Send(h: Handle)
    | Delete(h: Handle)
    | Connect(ok: bool)
    | Disconnect
    | SetIdleTimeout(secs: nat)
    | Destroy
    // the event handler, entered by an I/O event or a timer
    | OnConnected(id: nat, n: nat)
    | OnLinkLost(isError: bool)
    | OnRead(input: Option<seq<byte>>)
    | OnWrite(n: nat)
    | OnTransTimer(h: Handle)
    | OnConnTimer
    // the event handler, going on
    | DeletePing
    | ResumeHandler
    | TakeEvent
    | CheckDestroy
    | DrainDeferred
    | Reconnect(ok: bool)
    | Finish

  /** A transaction its user may still name: live, not deleted, and not the ping,
      unless the ping was reported lost. */
  predicate Usable(s: State, h: Handle) {
    h in s.pool.txns && h !in s.pool.delayRm && (s.pool.txns[h].ping ==> s.pool.txns[h].fate == Lost)
  }

  /** The output buffer once the ping has been printed. */
  function PingPrinted(s: State, id: nat): State {
    var h := s.pool.next;
    var t := PingTxn(id);
    var s1 := WithPool(s, Add(s.pool, t.(request := KeyValue.PING_REQUEST)));
    WithPool(Structure(s1, h), Add(s.pool, t))
  }

  predicate Enabled(s: State, a: Step) {
    match a
    case New(id) => s.ctl.pc != Gone && FreeId(s.pool, id)
    case SetParam(h, _, _) => s.ctl.pc != Gone && Usable(s, h)
    case SetTimeout(h, _) => s.ctl.pc != Gone && Usable(s, h)
    case Send(h) => s.ctl.pc != Gone && Usable(s, h)
    case Delete(h) => s.ctl.pc != Gone && Usable(s, h)
    case Connect(_) => s.ctl.pc != Gone
    case Disconnect => s.ctl.pc != Gone
    case SetIdleTimeout(_) => s.ctl.pc != Gone
    case Destroy => s.ctl.pc == Quiet || s.ctl.inUse
    case OnConnected(id, n) =>
      && s.ctl.pc == Quiet && s.link.io == Opening
      && (!s.link.disablePing ==> FreeId(s.pool, id) && n <= |PingPrinted(s, id).link.outbuf|)
    case OnLinkLost(_) => s.ctl.pc == Quiet && s.link.io != NoIo
    case OnRead(_) => s.ctl.pc == Quiet && s.link.io == Up
    case OnWrite(n) => s.ctl.pc == Quiet && s.link.io == Up && n <= |s.link.outbuf|
    case OnTransTimer(h) => s.ctl.pc == Quiet && h in s.pool.txns && s.pool.txns[h].timer
    case OnConnTimer => s.ctl.pc == Quiet && s.link.timer == Running
    case DeletePing => s.ctl.pc.Cleanup?
    case ResumeHandler => s.ctl.pc.Cleaned?
    case TakeEvent => s.ctl.pc == Deliver && s.ctl.batch != []
    case CheckDestroy => s.ctl.pc == Callback
    case DrainDeferred => s.ctl.pc == Deliver && s.ctl.batch == []
    case Reconnect(_) => s.ctl.pc.Leave?
    case Finish => s.ctl.pc == Last
  }

  function DoNew(s: State, id: nat): State {
    WithPool(s, Add(s.pool, Blank(id)))
  }

  /** Parameters and timeout can be set only while the transaction is new, and a
      parameter must have a name. */
  function DoSetParam(s: State, h: Handle, key: seq<byte>, value: seq<byte>): State
    requires h in s.pool.txns
  {
    var t := s.pool.txns[h];
    if key == [] || t.status != Status.New then s
    else WithPool(s, Edit(s.pool, h, t.(request := KeyValue.SetPair(t.request, key, value))))
  }

  function DoSetTimeout(s: State, h: Handle, secs: nat): State
    requires h in s.pool.txns
  {
    var t := s.pool.txns[h];
    if t.status != Status.New then s else WithPool(s, Edit(s.pool, h, t.(timeout := secs)))
  }

  /** Is this a transaction `send` accepts? */
  predicate Sendable(t: Txn) {
    t.status == Status.New && t.request != []
  }

  function MakeReady(s: State, h: Handle): State
    requires h in s.pool.txns
  {
    s.(pool := Move(s.pool, h, Queued(s.pool.txns[h], s.hist.sends)), hist := s.hist.(sends := s.hist.sends + 1))
  }

  /** The locked part of `send`. On a disconnected connection the caller goes on
      to connect, which is a step of its own. */
  function DoSend(s: State, h: Handle): State
    requires h in s.pool.txns
  {
    if !Sendable(s.pool.txns[h]) then s else SendMessages(MakeReady(s, h))
  }

  function DoDelete(s: State, h: Handle): State
    requires h in s.pool.txns
  {
    if s.ctl.inUse then WithPool(s, Defer(s.pool, h))
    else DeleteNow(s, Erase(KillTimer(s.pool, h), h))
  }

  function DoConnect(s: State, ok: bool): State {
    if s.link.io != NoIo || !ok then s
    else s.(link := s.link.(io := Opening, status := Connecting), hist := s.hist.(log := s.hist.log + [Attempt]))
  }

  function DoDisconnect(s: State): State {
    if s.link.io != NoIo && s.link.status == Connected then s.(link := s.link.(status := Disconnecting)) else s
  }

  function DoSetIdleTimeout(s: State, secs: nat): State {
    var s1 := s.(link := s.link.(idleTimeout := secs));
    if s.link.status != Connected then s1
    else if secs == 0 then SetTimer(s1, NoTimer)
    else if s.pool.pending == [] then SetTimer(s1, Running)
    else if s.link.timer == NoTimer then SetTimer(s1, Stopped)
    else s1
  }

  /** Frees the transactions of all four queues, in queue order, and removes none of
      their timers. */
  function FreeAll(p: Pool): Pool {
    p.(txns := map[], newq := [], ready := [], pending := [], done := [], idMap := map[],
       freed := p.freed + p.newq + p.ready + p.pending + p.done,
       dangling := p.dangling + Timed(p.txns, AllQueued(p)))
  }

  /** Destroys the connection object. */
  function Demolish(s: State): State {
    Goto(WithPool(s, FreeAll(s.pool)), Gone).(link := s.link.(io := NoIo, timer := NoTimer))
  }

  function DoDestroy(s: State): State {
    if s.ctl.inUse then s.(ctl := s.ctl.(destroy := true)) else Demolish(s)
  }

  function Enter(s: State): State {
    s.(ctl := s.ctl.(inUse := true, pc := Deliver))
  }

  function DoOnConnected(s: State, id: nat, n: nat): State
    requires !s.link.disablePing ==> n <= |PingPrinted(s, id).link.outbuf|
  {
    if s.link.disablePing then
      var s1 := Enter(s);
      CleanupTake(s1.(link := s1.link.(io := Up)), FromConnected)
    else
      var s1 := WriteOut(PingPrinted(s, id), n);
      Enter(s1.(link := s1.link.(io := Up, timer := Running, pingTxn := Some(s.pool.next))))
  }

  function DoOnRead(s: State, input: Option<seq<byte>>): State {
    match input
    case None => Enter(s)
    case Some(b) => ReadOn(Append(Enter(s), b))
  }

  function Append(s: State, b: seq<byte>): State {
    s.(link := s.link.(inbuf := s.link.inbuf + b), hist := s.hist.(input := s.hist.input + b))
  }

  function DoOnTransTimer(s: State, h: Handle): State
    requires h in s.pool.txns
  {
    var s1 := Emit(Enter(s), TransTimeout(h));
    WithPool(s1, KillTimer(s1.pool, h))
  }

  function DoOnConnTimer(s: State): State {
    var s1 := Enter(s);
    if s.link.status == Connecting then CleanupTake(s1, FromTimeout)
    else if s.link.status == Connected && s.pool.pending == [] then
      SetTimer(s1.(link := s1.link.(status := IdleTimeout)), NoTimer)
    else SetTimer(s1, NoTimer)
  }

  function DoDeletePing(s: State): State
    requires s.ctl.pc.Cleanup?
  {
    var s1 := Goto(s, Cleaned(s.ctl.pc.k));
    if s.link.pingTxn.Some? && s.link.pingTxn.value in s.pool.txns then
      WithPool(s1, Defer(s1.pool, s.link.pingTxn.value))
    else s1
  }

  function DoResume(s: State): State
    requires s.ctl.pc.Cleaned?
  {
    match s.ctl.pc.k
    case FromConnected => Goto(OpenUp(s), Deliver)
    case FromRead => ReadOn(OpenUp(s))
    case FromTimeout => Goto(ConnFail(s.(link := s.link.(pingTxn := None)), true), Deliver)
  }

  function DoTakeEvent(s: State): State
    requires s.ctl.batch != []
  {
    s.(ctl := s.ctl.(pc := Callback, batch := s.ctl.batch[1..]),
       hist := s.hist.(delivered := s.hist.delivered + [s.ctl.batch[0]]))
  }

  /** A destroy request ends the delivery of this batch. */
  function DoCheckDestroy(s: State): State {
    s.(ctl := s.ctl.(pc := Deliver, batch := if s.ctl.destroy then [] else s.ctl.batch))
  }

  function DoDrain(s: State): State {
    var s1 := DrainAll(s);
    s1.(ctl := s1.ctl.(inUse := false, pc := Leave(s1.link.status == Disconnected && s1.pool.ready != [])))
  }

  function DoReconnect(s: State, ok: bool): State
    requires s.ctl.pc.Leave?
  {
    Goto(if s.ctl.pc.reconnect then DoConnect(s, ok) else s, Last)
  }

  function DoFinish(s: State): State {
    if s.ctl.destroy then Demolish(s) else Goto(s, Quiet)
  }

  function Do(s: State, a: Step): State
    requires Enabled(s, a)
  {
    match a
    case New(id) => DoNew(s, id)
    case SetParam(h, key, value) => DoSetParam(s, h, key, value)
    case SetTimeout(h, secs) => DoSetTimeout(s, h, secs)
    case Send(h) => DoSend(s, h)
    case Delete(h) => DoDelete(s, h)
    case Connect(ok) => DoConnect(s, ok)
    case Disconnect => DoDisconnect(s)
    case SetIdleTimeout(secs) => DoSetIdleTimeout(s, secs)
    case Destroy => DoDestroy(s)
    case OnConnected(id, n) => DoOnConnected(s, id, n)
    case OnLinkLost(isError) => ConnFail(Enter(s), isError)
    case OnRead(input) => DoOnRead(s, input)
    case OnWrite(n) => Enter(WriteOut(s, n))
    case OnTransTimer(h) => DoOnTransTimer(s, h)
    case OnConnTimer => DoOnConnTimer(s)
    case DeletePing => DoDeletePing(s)
    case ResumeHandler => DoResume(s)
    case TakeEvent => DoTakeEvent(s)
    case CheckDestroy => DoCheckDestroy(s)
    case DrainDeferred => DoDrain(s)
    case Reconnect(ok) => DoReconnect(s, ok)
    case Finish => DoFinish(s)
  }
}
