/** The connection object itself: the fields of the source's structures, updated in
    place by its functions. Each method is proved to do, to the abstract value
    `View()`, exactly what the step function of `Engine` with its name does. */
module Connection {
  import opened Bytes
  import opened Pool
  import opened Engine
  import KeyValue
  import Framing
  import Decimal
  import ResponseKind
  import Effects

  /** A transaction. `handle` stands for its address. */
  class Trans {
    const handle: Handle
    const id: nat
    ghost const ping: bool
    var status: Status
    var requestParams: seq<KeyValue.Pair>
    var timeoutSecs: nat
    var timeoutTimer: bool
    var response: Response
    ghost var fate: Fate
    ghost var order: nat

    ghost function Value(): Txn
      reads this
    {
      Txn(id, ping, status, requestParams, timeoutSecs, timeoutTimer, response, fate, order)
    }

    constructor (handle: Handle, id: nat, ghost ping: bool)
      ensures this.handle == handle && this.id == id && Value() == Blank(id).(ping := ping)
    {
      this.handle := handle;
      this.id := id;
      this.ping := ping;
      status := Status.New;
      requestParams := [];
      timeoutSecs := 0;
      timeoutTimer := false;
      response := NoResponse;
      fate := Unresolved;
      order := 0;
    }

    method SetParam(key: seq<byte>, value: seq<byte>) returns (ok: bool)
      modifies this
      ensures ok <==> key != [] && old(status) == Status.New
      ensures Value() == if ok then old(Value()).(request := KeyValue.SetPair(old(requestParams), key, value)) else old(Value())
    {
      if key == [] || status != Status.New {
        return false;
      }
      requestParams := KeyValue.SetPair(requestParams, key, value);
      ok := true;
    }

    method SetTimeout(secs: nat) returns (ok: bool)
      modifies this
      ensures ok <==> old(status) == Status.New
      ensures Value() == if ok then old(Value()).(timeout := secs) else old(Value())
    {
      if status != Status.New {
        return false;
      }
      timeoutSecs := secs;
      ok := true;
    }
  }

  // ----- queues of transactions -----

  function Handles(q: seq<Trans>): (r: seq<Handle>)
    ensures |r| == |q| && forall i :: 0 <= i < |q| ==> r[i] == q[i].handle
  {
    seq(|q|, i requires 0 <= i < |q| => q[i].handle)
  }

  ghost predicate Known(live: map<Handle, Trans>, t: Trans) {
    t.handle in live && live[t.handle] == t
  }

  ghost predicate Addressed(live: map<Handle, Trans>) {
    forall h :: h in live ==> live[h].handle == h
  }

  ghost function TxnsOf(live: map<Handle, Trans>): map<Handle, Txn>
    reads live.Values
  {
    map h | h in live :: live[h].Value()
  }

  lemma TxnsGrow(live: map<Handle, Trans>, t: Trans)
    requires Addressed(live) && t.handle !in live
    ensures Addressed(live[t.handle := t])
    ensures TxnsOf(live[t.handle := t]) == TxnsOf(live)[t.handle := t.Value()]
  {
  }

  ghost predicate AllKnown(live: map<Handle, Trans>, q: seq<Trans>) {
    forall t :: t in q ==> Known(live, t)
  }

  lemma HandlesSnoc(live: map<Handle, Trans>, q: seq<Trans>, t: Trans)
    requires AllKnown(live, q) && Known(live, t)
    ensures Handles(q + [t]) == Handles(q) + [t.handle]
    ensures AllKnown(live, q + [t])
  {
  }

  ghost predicate IndexKnown(live: map<Handle, Trans>, idMap: map<nat, Trans>) {
    forall id :: id in idMap ==> Known(live, idMap[id]) && idMap[id].id == id
  }

  ghost function IndexOf(idMap: map<nat, Trans>): map<nat, Handle> {
    map id | id in idMap :: idMap[id].handle
  }

  lemma IndexGrows(live: map<Handle, Trans>, idMap: map<nat, Trans>, t: Trans)
    requires IndexKnown(live, idMap) && t.handle !in live
    ensures IndexKnown(live[t.handle := t], idMap[t.id := t])
    ensures IndexOf(idMap[t.id := t]) == IndexOf(idMap)[t.id := t.handle]
  {
  }

  lemma NotInIndex(live: map<Handle, Trans>, idMap: map<nat, Trans>, t: Trans)
    requires IndexKnown(live, idMap) && Known(live, t)
    ensures IndexKnown(live, idMap - {t.id})
    ensures IndexOf(idMap - {t.id}) == IndexOf(idMap) - {t.id}
    ensures forall id :: id in idMap - {t.id} ==> idMap[id] != t
  {
  }

  lemma HeldAt(live: map<Handle, Trans>, t: Trans)
    requires Known(live, t)
    ensures t.handle in TxnsOf(live) && TxnsOf(live)[t.handle] == t.Value()
  {
  }

  lemma TxnsShrink(live: map<Handle, Trans>, t: Trans)
    requires Addressed(live)
    ensures Addressed(live - {t.handle}) && TxnsOf(live - {t.handle}) == TxnsOf(live) - {t.handle}
  {
  }

  lemma KnownShrinks(live: map<Handle, Trans>, q: seq<Trans>, t: Trans)
    requires AllKnown(live, q) && Known(live, t) && t !in q
    ensures AllKnown(live - {t.handle}, q)
  {
  }

  lemma KnownGrows(live: map<Handle, Trans>, q: seq<Trans>, t: Trans)
    requires AllKnown(live, q) && t.handle !in live
    ensures AllKnown(live[t.handle := t], q)
  {
  }

  lemma {:induction false} HandlesWithout(live: map<Handle, Trans>, q: seq<Trans>, t: Trans)
    requires AllKnown(live, q) && Known(live, t)
    ensures Handles(Without(q, t)) == Without(Handles(q), t.handle)
    ensures AllKnown(live, Without(q, t))
  {
    if q != [] {
      assert Handles(q)[1..] == Handles(q[1..]);
      HandlesWithout(live, q[1..], t);
      if q[0] != t {
        assert Known(live, q[0]) && q[0].handle != t.handle;
        assert Handles(Without(q, t)) == [q[0].handle] + Handles(Without(q[1..], t));
      }
    }
  }

  lemma KnownIn(live: map<Handle, Trans>, q: seq<Trans>, t: Trans)
    requires AllKnown(live, q) && Known(live, t)
    ensures t in q <==> t.handle in Handles(q)
  {
    if t.handle in Handles(q) {
      var i :| 0 <= i < |q| && Handles(q)[i] == t.handle;
      assert q[i] in q;
    }
    if t in q {
      var i :| 0 <= i < |q| && q[i] == t;
      assert Handles(q)[i] == t.handle;
    }
  }

  lemma FrameParts(buf: seq<byte>, id: nat, data: seq<byte>)
    ensures buf + [STX] + Decimal.Print(id) + [FS] + data + [ETX] == buf + Framing.Frame(id, data)
  {
    hide Decimal.Print;
    var d := Decimal.Print(id);
    assert buf + [STX] + d + [FS] + data + [ETX] == buf + ([STX] + d + [FS] + data + [ETX]);
  }

  // ----- what a well-formed object looks like, as a value -----

  predicate Home(txns: map<Handle, Txn>, q: seq<Handle>, st: Status) {
    NoDup(q) && forall h :: h in q ==> h in txns && txns[h].status == st
  }

  /** A timeout timer starts when the transaction goes out. */
  predicate Untimed(txns: map<Handle, Txn>) {
    forall h :: h in txns && txns[h].status in {Status.New, Status.Ready} ==> !txns[h].timer
  }

  predicate Quiescent(t: Txn) {
    t.status in {Status.New, Status.Ready} ==> !t.timer
  }

  /** Queued transactions are live and have the status of their queue. */
  predicate Homed(p: Pool) {
    && Home(p.txns, p.newq, Status.New) && Home(p.txns, p.ready, Status.Ready)
    && Home(p.txns, p.pending, Status.Pending) && Home(p.txns, p.done, Status.Done)
    && NoDup(p.delayRm) && (forall h :: h in p.txns ==> h < p.next) && Untimed(p.txns)
  }

  lemma HomeAdd(txns: map<Handle, Txn>, q: seq<Handle>, st: Status, h: Handle, t: Txn)
    requires Home(txns, q, st) && h !in txns
    ensures Home(txns[h := t], if st == t.status then q + [h] else q, st)
  {
    NoDupPush(q, h);
    hide NoDup;
  }

  lemma HomeMove(txns: map<Handle, Txn>, q: seq<Handle>, st: Status, h: Handle, t: Txn)
    requires Home(txns, q, st) && h in txns && t.status != txns[h].status
    ensures Home(txns[h := t], if st == t.status then q + [h] else if st == txns[h].status then Without(q, h) else q, st)
  {
    WithoutNoDup(q, h);
    if h !in q { NoDupPush(q, h); }
    hide NoDup, Without;
  }

  lemma HomeErase(txns: map<Handle, Txn>, q: seq<Handle>, st: Status, h: Handle)
    requires Home(txns, q, st) && h in txns
    ensures Home(txns - {h}, if st == txns[h].status then Without(q, h) else q, st)
  {
    WithoutNoDup(q, h);
    hide NoDup, Without;
  }

  lemma HomedAdd(p: Pool, t: Txn)
    requires Homed(p) && Quiescent(t)
    ensures Homed(Add(p, t))
  {
    HomeAdd(p.txns, p.newq, Status.New, p.next, t);
    HomeAdd(p.txns, p.ready, Status.Ready, p.next, t);
    HomeAdd(p.txns, p.pending, Status.Pending, p.next, t);
    HomeAdd(p.txns, p.done, Status.Done, p.next, t);
    hide Home, NoDup;
  }

  lemma HomedMove(p: Pool, h: Handle, t: Txn)
    requires Homed(p) && h in p.txns && t.status != p.txns[h].status && Quiescent(t)
    ensures Homed(Move(p, h, t))
  {
    HomeMove(p.txns, p.newq, Status.New, h, t);
    HomeMove(p.txns, p.ready, Status.Ready, h, t);
    HomeMove(p.txns, p.pending, Status.Pending, h, t);
    HomeMove(p.txns, p.done, Status.Done, h, t);
    hide Home, NoDup, Without;
  }

  lemma HomedEdit(p: Pool, h: Handle, t: Txn)
    requires Homed(p) && h in p.txns && t.status == p.txns[h].status && Quiescent(t)
    ensures Homed(Edit(p, h, t))
  {
    hide NoDup;
  }

  lemma HomedErase(p: Pool, h: Handle)
    requires Homed(p) && h in p.txns
    ensures Homed(Erase(p, h))
  {
    HomeErase(p.txns, p.newq, Status.New, h);
    HomeErase(p.txns, p.ready, Status.Ready, h);
    HomeErase(p.txns, p.pending, Status.Pending, h);
    HomeErase(p.txns, p.done, Status.Done, h);
    hide Home, NoDup, Without;
  }

  /** Taking off a queue, writing, putting on another: a move. */
  lemma MoveInSteps(p: Pool, h: Handle, t: Txn)
    requires h in p.txns && t.status != p.txns[h].status
    ensures Push(Edit(Pull(p, p.txns[h].status, h), h, t), t.status, h) == Move(p, h, t)
  {
    hide Without;
  }

  lemma AddInSteps(p: Pool, t: Txn)
    ensures Push(p.(txns := p.txns[p.next := t], idMap := p.idMap[t.id := p.next], next := p.next + 1), t.status, p.next)
            == Add(p, t)
  {
  }

  /** Taking the head of the ready queue, printing it, queueing it as pending. */
  lemma PromoteInSteps(s: State)
    requires HasHead(s.pool, s.pool.ready, Status.Ready)
    ensures var h := s.pool.ready[0];
            var s1 := WithPool(s, Pull(s.pool, Status.Ready, h));
            h in s1.pool.txns
            && var s2 := WithPool(Structure(s1, h), Edit(s1.pool, h, Sent(s.pool.txns[h])));
               WithPool(s2, Push(s2.pool, Status.Pending, h)) == PromoteOne(s)
  {
    hide Without, KeyValue.Payload, Framing.Frame;
    MoveInSteps(s.pool, s.pool.ready[0], Sent(s.pool.txns[s.pool.ready[0]]));
  }

  /** The same with the write first. */
  lemma MoveWritten(p: Pool, h: Handle, t: Txn)
    requires h in p.txns && t.status != p.txns[h].status
    ensures Push(Pull(Edit(p, h, t), p.txns[h].status, h), t.status, h) == Move(p, h, t)
  {
    hide Without;
  }

  /** Off the queue of its status, a transaction is in no queue. */
  lemma PulledOut(p: Pool, h: Handle)
    requires Homed(p) && h in p.txns
    ensures forall st :: h !in Queue(Pull(p, p.txns[h].status, h), st)
    ensures Pull(p, p.txns[h].status, h).delayRm == p.delayRm
  {
    var q := Pull(p, p.txns[h].status, h);
    forall st ensures h !in Queue(q, st) {
      WithoutNoDup(Queue(p, p.txns[h].status), h);
      assert Home(p.txns, Queue(p, st), st);
      hide Without, NoDup;
    }
  }

  function Dropped(p: Pool, h: Handle): Pool
    requires h in p.txns
  {
    var t := p.txns[h];
    p.(txns := p.txns - {h}, idMap := p.idMap - {t.id}, freed := p.freed + [h],
       dangling := if t.timer then p.dangling + {h} else p.dangling)
  }

  lemma EraseInSteps(p: Pool, h: Handle)
    requires h in p.txns
    ensures var q := Pull(p, p.txns[h].status, h); q.txns == p.txns && Dropped(q, h) == Erase(p, h)
  {
    hide Without;
  }

  /** The same with the write last. */
  lemma MoveThenWrite(p: Pool, h: Handle, t: Txn)
    requires h in p.txns && t.status != p.txns[h].status
    ensures Edit(Push(Pull(p, p.txns[h].status, h), t.status, h), h, t) == Move(p, h, t)
  {
    hide Without;
  }

  /** Whether a frame is taken off before or after its reply is stored. */
  lemma ConsumeLater(s: State, m: Framing.Message, rest: seq<byte>)
    ensures match PendingHolder(s.pool, m.id)
            case None => true
            case Some(h) =>
              Answer(Consume(s, m, rest), h, m) == Consume(Answer(s, h, m), m, rest) && Answer(s, h, m).link == s.link
  {
    hide BuildResponse, Move;
  }

  /** Taking a frame off changes nothing about who waits. */
  lemma Holders(s: State)
    ensures match Framing.NextFrame(s.link.inbuf)
            case Got(m, rest) =>
              (match PendingHolder(s.pool, m.id)
               case None => ParseBuffer(s) == ParseBuffer(Consume(s, m, rest))
               case Some(h) => ParseBuffer(s) == (Answer(Consume(s, m, rest), h, m), Completed(h))
                               && Answer(Consume(s, m, rest), h, m) == Consume(Answer(s, h, m), m, rest))
            case NeedMore => ParseBuffer(s) == (s, Starved)
            case Malformed => ParseBuffer(s) == (s, Broken)
  {
    hide Framing.NextFrame, BuildResponse, Move;
  }

  lemma {:induction false} ParseKeepsPing(s: State)
    ensures ParseBuffer(s).0.link.pingTxn == s.link.pingTxn
    decreases |s.link.inbuf|
  {
    hide Framing.NextFrame, BuildResponse, Move;
    match Framing.NextFrame(s.link.inbuf)
    case Got(m, rest) =>
      if PendingHolder(s.pool, m.id) == None { ParseKeepsPing(Consume(s, m, rest)); }
    case _ =>
  }

  lemma ReportKeepsLink(s: State, h: Handle)
    requires h in s.pool.txns
    ensures Report(s, h).link == s.link
  {
  }

  lemma DrainShorter(p: Pool)
    requires p.delayRm != [] && p.delayRm[0] in p.txns
    ensures DrainHead(p) == Erase(p.(delayRm := p.delayRm[1..]), p.delayRm[0]) && DrainHead(p).delayRm == p.delayRm[1..]
  {
    hide Without;
  }

  lemma HomedPull(p: Pool, h: Handle)
    requires Homed(p)
    ensures Homed(Pull(p, Status.Pending, h))
  {
    WithoutNoDup(p.pending, h);
    hide NoDup, Without;
  }

  lemma PingInSteps(s: State, id: nat)
    ensures var h := s.pool.next;
            var s2 := WithPool(s, Add(s.pool, PingTxn(id).(request := KeyValue.PING_REQUEST)));
            && h in s2.pool.txns && s2.pool.txns[h] == PingTxn(id).(request := KeyValue.PING_REQUEST)
            && WithPool(Structure(s2, h), Edit(s2.pool, h, PingTxn(id))) == PingPrinted(s, id)
            && PingPrinted(s, id).pool == Add(s.pool, PingTxn(id))
  {
    hide KeyValue.Payload, Framing.Frame;
  }

  lemma HomedFreed(p: Pool)
    requires p.delayRm == []
    ensures Homed(FreeAll(p))
  {
  }

  function Cleared(p: Pool, st: Status): Pool {
    match st
    case New => p.(newq := [])
    case Ready => p.(ready := [])
    case Pending => p.(pending := [])
    case Done => p.(done := [])
  }

  function Emptied(p: Pool, st: Status): Pool {
    Cleared(p.(freed := p.freed + Queue(p, st), dangling := p.dangling + Timed(p.txns, Queue(p, st))), st)
  }

  lemma TimedConcat(txns: map<Handle, Txn>, a: seq<Handle>, b: seq<Handle>)
    ensures Timed(txns, a + b) == Timed(txns, a) + Timed(txns, b)
  {
  }

  lemma EmptiedAll(p: Pool)
    ensures var q := Emptied(Emptied(Emptied(Emptied(p, Status.New), Status.Ready), Status.Pending), Status.Done);
            && q.newq == [] && q.ready == [] && q.pending == [] && q.done == []
            && q.(txns := map[], idMap := map[]) == FreeAll(p)
  {
    TimedConcat(p.txns, p.newq, p.ready);
    TimedConcat(p.txns, p.newq + p.ready, p.pending);
    TimedConcat(p.txns, p.newq + p.ready + p.pending, p.done);
    hide Timed;
  }

  /** A malformed front of the input buffer is taken off. */
  function Discarded(s: State): State {
    s.(link := s.link.(inbuf := Framing.AfterMalformed(s.link.inbuf)))
  }

  /** What is still in the input buffer when a connection is lost makes no difference. */
  lemma LossDropsInput(s: State, isError: bool)
    ensures ConnFail(Discarded(s), isError) == ConnFail(s, isError)
    ensures Discarded(s).pool == s.pool && ResetTimer(Discarded(s)) == Discarded(ResetTimer(s))
  {
    hide FailAll, NoConnectAll, Framing.AfterMalformed;
    assert TearDown(Discarded(s)) == TearDown(s);
  }

  lemma NothingLeft(live: map<Handle, Trans>)
    ensures TxnsOf(map[]) == map[] && IndexOf(map[]) == map[] && Handles([]) == []
    ensures AllKnown(live, []) && IndexKnown(map[], map[]) && Addressed(map[])
  {
  }

  class Conn {
    var status: ConnStatus
    var io: Io
    var timer: Timer
    var outbuf: seq<byte>
    var inbuf: seq<byte>
    var pingTxn: Trans?
    var idleTimeout: nat
    const disablePing: bool
    var transNew: seq<Trans>
    var transReady: seq<Trans>
    var transPending: seq<Trans>
    var transDone: seq<Trans>
    var transIdMap: map<nat, Trans>
    var transDelayRm: seq<Trans>
    var inUse: bool
    var destroy: bool
    var events: seq<Event>
    /** The allocator: the next address, and what lives at the earlier ones. */
    var next: Handle
    ghost var live: map<Handle, Trans>
    ghost var freed: seq<Handle>
    ghost var dangling: set<Handle>
    ghost var pc: Pc
    ghost var hist: History

    // ----- the abstract value -----

    ghost function PoolView(): Pool
      reads `transNew, `transReady, `transPending, `transDone, `transIdMap, `transDelayRm, `next, `live, `freed, `dangling, live.Values
    {
      Pool(TxnsOf(live), Handles(transNew), Handles(transReady), Handles(transPending), Handles(transDone),
           IndexOf(transIdMap), Handles(transDelayRm), next, freed, dangling)
    }

    ghost function LinkView(): (l: Link)
      reads `status, `io, `timer, `outbuf, `inbuf, `pingTxn, `idleTimeout
      ensures l.status == status
    {
      Link(status, io, timer, outbuf, inbuf, if pingTxn == null then None else Some(pingTxn.handle), idleTimeout, disablePing)
    }

    ghost function CtlView(): Control
      reads `pc, `inUse, `destroy, `events
    {
      Control(pc, inUse, destroy, events)
    }

    ghost function View(): State
      reads this, live.Values
    {
      State(PoolView(), LinkView(), CtlView(), hist)
    }

    /** Every pointer points to a live transaction, but for a ping pointer left
        behind; the index is by id. */
    ghost predicate Shape()
      reads `transNew, `transReady, `transPending, `transDone, `transIdMap, `transDelayRm, `live, `next, `pingTxn
    {
      && Addressed(live)
      && AllKnown(live, transNew) && AllKnown(live, transReady) && AllKnown(live, transPending)
      && AllKnown(live, transDone) && AllKnown(live, transDelayRm)
      && IndexKnown(live, transIdMap)
      && (pingTxn != null ==> pingTxn.handle < next && (pingTxn.handle in live ==> live[pingTxn.handle] == pingTxn))
    }

    ghost predicate Rep()
      reads `transNew, `transReady, `transPending, `transDone, `transIdMap, `transDelayRm, `next, `live, `freed, `dangling, `pingTxn, live.Values
    {
      Shape() && Homed(PoolView())
    }

    constructor (disablePing: bool)
      ensures Rep() && View() == Init(disablePing) && live == map[]
    {
      status, io, timer := Disconnected, NoIo, NoTimer;
      outbuf, inbuf, pingTxn, idleTimeout := [], [], null, 0;
      this.disablePing := disablePing;
      transNew, transReady, transPending, transDone := [], [], [], [];
      transIdMap, transDelayRm := map[], [];
      inUse, destroy, events := false, false, [];
      live, next, freed, dangling, pc := map[], 0, [], {}, Quiet;
      hist := Init(disablePing).hist;
    }

    // ----- the containers -----

    method QueueInsert(st: Status, t: Trans)
      requires Shape() && Known(live, t)
      modifies `transNew, `transReady, `transPending, `transDone
      ensures Shape() && View() == WithPool(old(View()), Push(old(PoolView()), st, t.handle))
    {
      hide Without, Handles, NoDup, Known, AllKnown, IndexKnown, TxnsOf, IndexOf, Addressed, LinkView, CtlView;
      match st {
        case New =>
          HandlesSnoc(live, transNew, t);
          transNew := transNew + [t];
        case Ready =>
          HandlesSnoc(live, transReady, t);
          transReady := transReady + [t];
        case Pending =>
          HandlesSnoc(live, transPending, t);
          transPending := transPending + [t];
        case Done =>
          HandlesSnoc(live, transDone, t);
          transDone := transDone + [t];
      }
    }

    method QueueTake(st: Status, t: Trans)
      requires Shape() && Known(live, t)
      modifies `transNew, `transReady, `transPending, `transDone
      ensures Shape() && View() == WithPool(old(View()), Pull(old(PoolView()), st, t.handle))
    {
      hide Without, Handles, NoDup, Known, AllKnown, IndexKnown, TxnsOf, IndexOf, Addressed, LinkView, CtlView;
      match st {
        case New =>
          HandlesWithout(live, transNew, t);
          transNew := Without(transNew, t);
        case Ready =>
          HandlesWithout(live, transReady, t);
          transReady := Without(transReady, t);
        case Pending =>
          HandlesWithout(live, transPending, t);
          transPending := Without(transPending, t);
        case Done =>
          HandlesWithout(live, transDone, t);
          transDone := Without(transDone, t);
      }
    }

    /** Of the pool, nothing but `t` was written: its value is all that changed. */
    twostate lemma OnlyWrote(t: Trans)
      requires old(Shape()) && old(Known(live, t))
      requires unchanged(`live, `transNew, `transReady, `transPending, `transDone, `transIdMap, `transDelayRm, `next, `freed, `dangling, `pingTxn)
      requires forall h :: h in live && h != t.handle ==> unchanged(live[h])
      ensures Shape() && PoolView() == Edit(old(PoolView()), t.handle, t.Value())
    {
      hide Handles, IndexOf, AllKnown, IndexKnown;
      assert TxnsOf(live) == old(TxnsOf(live))[t.handle := t.Value()];
    }

    // ----- new transactions -----

    /** Draws ids until one is free. The generator is the sequence of its draws. */
    method DrawId(draws: seq<nat>) returns (id: nat)
      requires exists k :: 0 <= k < |draws| && draws[k] !in transIdMap
      ensures exists k :: 0 <= k < |draws| && draws[k] == id && id !in transIdMap
                          && forall n :: 0 <= n < k ==> draws[n] in transIdMap
    {
      var k := 0;
      while draws[k] in transIdMap
        invariant 0 <= k < |draws|
        invariant forall n :: 0 <= n < k ==> draws[n] in transIdMap
        decreases |draws| - k
      {
        k := k + 1;
      }
      id := draws[k];
    }
  
    method TransNew(draws: seq<nat>) returns (t: Trans)
      requires Rep() && forall k :: 0 <= k < |draws| ==> 1 <= draws[k] <= MAX_ID
      requires exists k :: 0 <= k < |draws| && draws[k] !in transIdMap
      modifies this
      ensures Rep() && fresh(t) && Known(live, t)
      ensures FreeId(old(PoolView()), t.id) && View() == DoNew(old(View()), t.id)
    {
      hide Homed, Shape, PoolView, LinkView, CtlView, Push, Handles, Without;
      var id := DrawId(draws);
      t := new Trans(next, id, false);
      PoolFacts(id);
      Adopt(t);
      QueueInsert(Status.New, t);
      AddInSteps(old(PoolView()), Blank(id));
      HomedAdd(old(PoolView()), Blank(id));
    }

    lemma PoolFacts(id: nat)
      requires Rep()
      ensures next !in live && PoolView().next == next && (id in PoolView().idMap <==> id in transIdMap)
    {
      hide Handles, NoDup, Home;
      assert next !in PoolView().txns;
    }

    /** A transaction object enters the index. */
    method Adopt(t: Trans)
      requires Shape() && t.handle == next && next !in live && t.id !in transIdMap
      modifies `transIdMap, `live, `next
      ensures Shape() && live == old(live)[t.handle := t]
      ensures View() == WithPool(old(View()), old(PoolView()).(txns := old(PoolView()).txns[t.handle := t.Value()],
                                 idMap := old(PoolView()).idMap[t.id := t.handle], next := old(next) + 1))
    {
      hide Handles, AllKnown, IndexKnown, IndexOf, Addressed, TxnsOf, Known;
      TxnsGrow(live, t);
      IndexGrows(live, transIdMap, t);
      KnownGrows(live, transNew, t);
      KnownGrows(live, transReady, t);
      KnownGrows(live, transPending, t);
      KnownGrows(live, transDone, t);
      KnownGrows(live, transDelayRm, t);
      transIdMap := transIdMap[t.id := t];
      live, next := live[t.handle := t], next + 1;
    }

    method TransSetParam(t: Trans, key: seq<byte>, value: seq<byte>) returns (ok: bool)
      requires Rep() && Known(live, t)
      modifies t
      ensures Rep() && View() == DoSetParam(old(View()), t.handle, key, value)
      ensures ok <==> key != [] && old(t.status) == Status.New
    {
      ok := t.SetParam(key, value);
      OnlyWrote(t);
      HomedEdit(old(PoolView()), t.handle, t.Value());
      hide Homed, Handles, AllKnown, IndexKnown, IndexOf;
      assert !ok ==> TxnsOf(live) == old(TxnsOf(live));
    }

    method TransSetTimeout(t: Trans, secs: nat) returns (ok: bool)
      requires Rep() && Known(live, t)
      modifies t
      ensures Rep() && View() == DoSetTimeout(old(View()), t.handle, secs)
      ensures ok <==> old(t.status) == Status.New
    {
      ok := t.SetTimeout(secs);
      OnlyWrote(t);
      HomedEdit(old(PoolView()), t.handle, t.Value());
      hide Homed, Handles, AllKnown, IndexKnown, IndexOf;
      assert !ok ==> TxnsOf(live) == old(TxnsOf(live));
    }

    // ----- sending -----

    method AppendFrame(id: nat, params: seq<KeyValue.Pair>)
      modifies `outbuf
      ensures LinkView() == old(LinkView()).(outbuf := old(LinkView()).outbuf + Framing.Frame(id, KeyValue.Payload(params)))
    {
      hide Framing.Frame, Decimal.Print, KeyValue.Encode;
      outbuf := outbuf + [STX];
      outbuf := outbuf + Decimal.Print(id);
      outbuf := outbuf + [FS];
      if KeyValue.IsPing(params) {
        outbuf := outbuf + KeyValue.PING_MESSAGE;
      } else {
        outbuf := outbuf + KeyValue.Encode(params);
      }
      outbuf := outbuf + [ETX];
      FrameParts(old(outbuf), id, KeyValue.Payload(params));
    }

    /** Prints the frame of `t` into the output buffer and forgets the request. */
    method TransStructure(t: Trans)
      requires Shape() && Known(live, t)
      modifies `outbuf, `hist, t
      ensures Shape() && t.Value() == old(t.Value()).(request := [])
      ensures t.handle in old(PoolView()).txns
              && View() == WithPool(Structure(old(View()), t.handle), Edit(old(PoolView()), t.handle, t.Value()))
    {
      hide Framing.Frame, KeyValue.Payload;
      AppendFrame(t.id, t.requestParams);
      hist := hist.(printed := hist.printed
        + [Print(t.handle, Framing.Message(t.id, KeyValue.Payload(t.requestParams)), t.ping, t.order)]);
      t.requestParams := [];
      OnlyWrote(t);
      ValueOf(t);
      hide Shape, PoolView, CtlView, LinkView;
    }

    twostate lemma ValueOf(t: Trans)
      requires old(Shape()) && old(Known(live, t))
      ensures t.handle in old(PoolView()).txns && old(PoolView()).txns[t.handle] == old(t.Value())
    {
    }

    /** Marked pending, printed, and its timeout timer started if it has one. */
    method PutOnWire(t: Trans)
      requires Shape() && Known(live, t) && !t.timeoutTimer
      modifies `outbuf, `hist, t
      ensures Shape() && t.Value() == Sent(old(t.Value()))
      ensures t.handle in old(PoolView()).txns
              && View() == WithPool(Structure(old(View()), t.handle), Edit(old(PoolView()), t.handle, t.Value()))
    {
      hide Framing.Frame, KeyValue.Payload;
      ValueOf(t);
      t.status := Status.Pending;
      OnlyWrote(t);
      ghost var v := View();
      TransStructure(t);
      ghost var w := View();
      if t.timeoutSecs != 0 {
        t.timeoutTimer := true;
      }
      OnlyWrote(t);
      hide Shape, PoolView, LinkView, CtlView;
    }

    /** The head of a queue is live and has the queue's status. */
    lemma HeadIsHome(q: seq<Trans>, st: Status)
      requires Rep() && q != [] && AllKnown(live, q) && Handles(q) == Queue(PoolView(), st)
      ensures Known(live, q[0]) && q[0].status == st && HasHead(PoolView(), Handles(q), st) && Handles(q)[0] == q[0].handle
      ensures PoolView().txns[q[0].handle] == q[0].Value()
      ensures st in {Status.New, Status.Ready} ==> !q[0].timeoutTimer
    {
      hide NoDup;
      assert q[0] in q && Handles(q)[0] in Handles(q);
      assert PoolView().txns[q[0].handle] == q[0].Value();
    }

    /** The first ready transaction goes out. */
    method PromoteFirst()
      requires Rep() && transReady != []
      modifies this, live.Values
      ensures Rep() && live == old(live) && status == old(status)
      ensures HasHead(old(PoolView()), old(PoolView()).ready, Status.Ready) && View() == PromoteOne(old(View()))
    {
      hide Homed, Shape, PoolView, LinkView, CtlView, Move, Pull, Push, Handles, Without, KeyValue.Payload,
           Framing.Frame;
      var t := transReady[0];
      ReadyHead();
      PromoteInSteps(View());
      HomedMove(PoolView(), t.handle, Sent(t.Value()));
      QueueTake(Status.Ready, t);
      PutOnWire(t);
      QueueInsert(Status.Pending, t);
    }

    lemma ReadyHead()
      requires Rep() && transReady != []
      ensures var t := transReady[0];
              && Known(live, t) && t.status == Status.Ready && !t.timeoutTimer
              && HasHead(PoolView(), PoolView().ready, Status.Ready) && PoolView().ready[0] == t.handle
              && PoolView().txns[t.handle] == t.Value()
    {
      HeadIsHome(transReady, Status.Ready);
      hide Homed, Handles;
    }

    lemma Counts()
      ensures |PoolView().ready| == |transReady| && |PoolView().pending| == |transPending|
      ensures |PoolView().delayRm| == |transDelayRm|
    {
    }

    /** Stopping or resetting a timer that does not exist does nothing. */
    method TimerStop()
      modifies `timer
      ensures View() == StopTimer(old(View()))
    {
      if timer != NoTimer {
        timer := Stopped;
      }
    }

    method TimerReset()
      modifies `timer
      ensures View() == ResetTimer(old(View()))
    {
      if timer != NoTimer {
        timer := Running;
      }
    }

    method TimerSet(t: Timer)
      modifies `timer
      ensures View() == SetTimer(old(View()), t)
    {
      timer := t;
    }

    /** When connected, everything ready goes out; the idle timer stops if anything
        is pending. The caller has dealt with the disconnected connection. */
    method SendMessages()
      requires Rep()
      modifies this, live.Values
      ensures Rep() && live == old(live) && View() == Engine.SendMessages(old(View()))
    {
      hide PromoteOne, Homed, Shape, PoolView, LinkView, CtlView, Handles;
      if status != Connected {
        return;
      }
      Counts();
      while transReady != []
        invariant Rep() && live == old(live) && status == Connected
        invariant PromoteAll(View()) == PromoteAll(old(View()))
        invariant |PoolView().ready| == |transReady|
        decreases |PoolView().ready|
      {
        PromoteFirst();
        Counts();
      }
      Counts();
      if transPending != [] {
        TimerStop();
      }
    }
  
    method MarkReady(t: Trans)
      requires Shape() && Known(live, t)
      modifies t
      ensures Shape() && View() == WithPool(old(View()), Edit(old(PoolView()), t.handle, Queued(old(t.Value()), hist.sends)))
    {
      hide PoolView, LinkView, CtlView;
      t.status, t.order := Status.Ready, hist.sends;
      OnlyWrote(t);
      hide Shape;
    }

    /** Accepted: off the new queue, on the ready queue. */
    method MakeReady(t: Trans)
      requires Rep() && Known(live, t) && t.status == Status.New
      modifies this, t
      ensures Rep() && live == old(live)
      ensures t.handle in old(PoolView()).txns && View() == Engine.MakeReady(old(View()), t.handle)
    {
      hide Homed, PoolView, LinkView, CtlView, Move, Pull, Push, Handles, Without;
      ValueOf(t);
      NotTimed(t);
      HomedMove(PoolView(), t.handle, Queued(t.Value(), hist.sends));
      MoveWritten(PoolView(), t.handle, Queued(t.Value(), hist.sends));
      MarkReady(t);
      hide Shape;
      QueueTake(Status.New, t);
      QueueInsert(Status.Ready, t);
      hist := hist.(sends := hist.sends + 1);
    }

    lemma NotTimed(t: Trans)
      requires Rep() && Known(live, t) && t.status in {Status.New, Status.Ready}
      ensures !t.timeoutTimer
    {
      hide NoDup, Home;
      assert PoolView().txns[t.handle] == t.Value();
    }

    /** `LM_trans_send` up to where it would start a connection. */
    method SendLocked(t: Trans) returns (ok: bool)
      requires Rep() && Known(live, t)
      modifies this, live.Values
      ensures Rep() && live == old(live)
      ensures t.handle in old(PoolView()).txns && View() == DoSend(old(View()), t.handle)
      ensures ok <==> Sendable(old(t.Value()))
    {
      hide Homed, Shape, PoolView, LinkView, CtlView, Engine.MakeReady, Engine.SendMessages;
      ValueOf(t);
      if t.status != Status.New || t.requestParams == [] {
        return false;
      }
      MakeReady(t);
      SendMessages();
      ok := true;
    }

    // ----- deleting -----

    /** Leaves the index. */
    method Unindex(t: Trans)
      requires Shape() && Known(live, t)
      modifies `transIdMap
      ensures Shape() && Unindexed(t)
      ensures View() == WithPool(old(View()), old(PoolView()).(idMap := old(PoolView()).idMap - {t.id}))
    {
      hide Handles, AllKnown, IndexKnown, IndexOf, Addressed, TxnsOf, LinkView, CtlView;
      NotInIndex(live, transIdMap, t);
      transIdMap := transIdMap - {t.id};
    }

    ghost predicate Unindexed(t: Trans)
      reads `transIdMap
    {
      forall id :: id in transIdMap ==> transIdMap[id] != t
    }

    /** Leaves the heap. */
    method Free(t: Trans)
      requires Shape() && Known(live, t) && Unqueued(t) && Unindexed(t)
      modifies `live, `freed, `dangling
      ensures Shape() && live == old(live) - {t.handle}
      ensures View() == WithPool(old(View()), old(PoolView()).(txns := old(PoolView()).txns - {t.handle},
                                 freed := old(PoolView()).freed + [t.handle],
                                 dangling := if t.timeoutTimer then old(PoolView()).dangling + {t.handle} else old(PoolView()).dangling))
    {
      hide Handles, AllKnown, IndexKnown, IndexOf, Addressed, TxnsOf, LinkView, CtlView, Unindexed;
      TxnsShrink(live, t);
      IndexApart(t);
      QueuesApart(t);
      live, freed := live - {t.handle}, freed + [t.handle];
      dangling := if t.timeoutTimer then dangling + {t.handle} else dangling;
    }

    lemma IndexApart(t: Trans)
      requires IndexKnown(live, transIdMap) && Unindexed(t) && Known(live, t)
      ensures IndexKnown(live - {t.handle}, transIdMap)
    {
    }

    lemma QueuesApart(t: Trans)
      requires Shape() && Known(live, t) && Unqueued(t)
      ensures var rest := live - {t.handle};
              && AllKnown(rest, transNew) && AllKnown(rest, transReady) && AllKnown(rest, transPending)
              && AllKnown(rest, transDone) && AllKnown(rest, transDelayRm)
    {
      hide AllKnown;
      KnownShrinks(live, transNew, t);
      KnownShrinks(live, transReady, t);
      KnownShrinks(live, transPending, t);
      KnownShrinks(live, transDone, t);
      KnownShrinks(live, transDelayRm, t);
    }

    /** Leaves the index and the heap. */
    method Discard(t: Trans)
      requires Shape() && Known(live, t) && Unqueued(t)
      modifies `transIdMap, `live, `freed, `dangling
      ensures Shape() && live == old(live) - {t.handle}
      ensures t.handle in old(PoolView()).txns && old(PoolView()).txns[t.handle] == t.Value()
      ensures View() == WithPool(old(View()), Dropped(old(PoolView()), t.handle))
    {
      hide Shape, PoolView, LinkView, CtlView, Unqueued, Unindexed;
      ValueOf(t);
      Unindex(t);
      Free(t);
    }

    ghost predicate Unqueued(t: Trans)
      reads `transNew, `transReady, `transPending, `transDone, `transDelayRm
    {
      t !in transNew && t !in transReady && t !in transPending && t !in transDone && t !in transDelayRm
    }

    lemma InNoQueue(t: Trans)
      requires Shape() && Known(live, t) && forall st :: t.handle !in Queue(PoolView(), st)
      requires t.handle !in PoolView().delayRm
      ensures Unqueued(t)
    {
      var p := PoolView();
      assert t.handle !in Queue(p, Status.New) && t.handle !in Queue(p, Status.Ready)
          && t.handle !in Queue(p, Status.Pending) && t.handle !in Queue(p, Status.Done);
      KnownIn(live, transNew, t);
      KnownIn(live, transReady, t);
      KnownIn(live, transPending, t);
      KnownIn(live, transDone, t);
      KnownIn(live, transDelayRm, t);
      hide Handles, AllKnown, TxnsOf;
    }

    method TransDeleteUnlocked(t: Trans)
      requires Rep() && Known(live, t) && t.handle !in PoolView().delayRm
      modifies this
      ensures Rep() && live == old(live) - {t.handle}
      ensures t.handle in old(PoolView()).txns && View() == DeleteNow(old(View()), Erase(old(PoolView()), t.handle))
    {
      hide Homed, Shape, PoolView, LinkView, CtlView, Pull, Push, Handles, Without;
      ValueOf(t);
      HomedErase(PoolView(), t.handle);
      PulledOut(PoolView(), t.handle);
      EraseInSteps(PoolView(), t.handle);
      QueueTake(t.status, t);
      InNoQueue(t);
      Discard(t);
      Counts();
      if status == Connected && transPending == [] {
        TimerReset();
      }
    }
  
    method KillTimeout(t: Trans)
      requires Rep() && Known(live, t)
      modifies t
      ensures Rep() && t.handle in old(PoolView()).txns && View() == WithPool(old(View()), KillTimer(old(PoolView()), t.handle))
      ensures t.Value() == old(t.Value()).(timer := false)
    {
      hide PoolView, LinkView, CtlView;
      ValueOf(t);
      HomedEdit(PoolView(), t.handle, t.Value().(timer := false));
      if t.timeoutTimer {
        t.timeoutTimer := false;
      }
      OnlyWrote(t);
      hide Shape, Homed;
    }

    /** While the handler runs the deletion is only noted. */
    method TransDelete(t: Trans)
      requires Rep() && Known(live, t) && t.handle !in PoolView().delayRm
      modifies this, t
      ensures Rep() && t.handle in old(PoolView()).txns && View() == DoDelete(old(View()), t.handle)
    {
      hide Homed, Shape, PoolView, LinkView, Erase, Handles, Without;
      KillTimeout(t);
      ValueOf(t);
      if inUse {
        DelayRm(t);
        return;
      }
      TransDeleteUnlocked(t);
    }

    method DelayRm(t: Trans)
      requires Rep() && Known(live, t) && t.handle !in PoolView().delayRm
      modifies `transDelayRm
      ensures Rep() && View() == WithPool(old(View()), old(PoolView()).(delayRm := old(PoolView()).delayRm + [t.handle]))
    {
      hide LinkView, CtlView, Handles, AllKnown, TxnsOf, IndexOf, IndexKnown, Addressed, Home;
      HandlesSnoc(live, transDelayRm, t);
      NoDupPush(PoolView().delayRm, t.handle);
      hide NoDup;
      transDelayRm := transDelayRm + [t];
    }

    // ----- connecting -----

    /** `created` says whether the I/O object could be created and registered. */
    method Connect(created: bool) returns (ok: bool)
      requires Rep()
      modifies `io, `status, `hist
      ensures Rep() && View() == DoConnect(old(View()), created)
      ensures ok <==> old(io) == NoIo && created
    {
      hide PoolView, CtlView;
      if io != NoIo || !created {
        return false;
      }
      io := Opening;
      status := Connecting;
      hist := hist.(log := hist.log + [Attempt]);
      ok := true;
    }

    method DisconnectLocked() returns (ok: bool)
      requires Rep()
      modifies `status
      ensures Rep() && View() == DoDisconnect(old(View()))
      ensures ok <==> old(io) != NoIo && old(status) == Connected
    {
      hide PoolView, CtlView;
      if io != NoIo && status == Connected {
        status := Disconnecting;
        return true;
      }
      ok := false;
    }

    method SetIdleTimeout(secs: nat)
      requires Rep()
      modifies `idleTimeout, `timer
      ensures Rep() && View() == DoSetIdleTimeout(old(View()), secs)
    {
      Counts();
      hide PoolView, CtlView, Homed, Shape;
      idleTimeout := secs;
      if status == Connected {
        if idleTimeout == 0 && timer != NoTimer {
          timer := NoTimer;
        }
        if idleTimeout != 0 && timer == NoTimer {
          timer := Stopped;
        }
        if idleTimeout != 0 && transPending == [] {
          TimerReset();
        }
      }
    }

    // ----- losing the connection -----

    method EventAdd(e: Event)
      modifies `events, `hist
      ensures View() == Emit(old(View()), e)
    {
      hide PoolView, LinkView;
      events := events + [e];
      hist := hist.(log := hist.log + [Queues(e)]);
    }

    /** The I/O object, both buffers and the timer go. */
    method DropIo()
      modifies `status, `io, `timer, `outbuf, `inbuf
      ensures LinkView() == old(LinkView()).(status := Disconnected, io := NoIo, timer := NoTimer, outbuf := [], inbuf := [])
    {
      io, status, outbuf, inbuf := NoIo, Disconnected, [], [];
      if timer != NoTimer {
        timer := NoTimer;
      }
    }

    method DropLink()
      modifies `status, `io, `timer, `outbuf, `inbuf, `hist
      ensures View() == TearDown(old(View()))
    {
      hide PoolView, LinkView, CtlView;
      DropIo();
      hist := hist.(past := hist.past + [Past(hist.mark, |hist.printed|, hist.wire, hist.frames)], mark := |hist.printed|,
                    wire := [], input := [], frames := []);
    }

    method MarkFailed(t: Trans)
      requires Shape() && Known(live, t)
      modifies t
      ensures Shape() && View() == WithPool(old(View()), Edit(old(PoolView()), t.handle, Finished(old(t.Value()), REFUSAL, Lost)))
    {
      hide PoolView, LinkView, CtlView, REFUSAL;
      t.status, t.fate := Status.Done, Lost;
      t.response := REFUSAL;
      if t.timeoutTimer {
        t.timeoutTimer := false;
      }
      OnlyWrote(t);
      hide Shape;
    }

    /** The first pending transaction fails. */
    method FailFirst()
      requires Rep() && transPending != []
      modifies this, live.Values
      ensures Rep() && live == old(live)
      ensures HasHead(old(PoolView()), old(PoolView()).pending, Status.Pending) && View() == FailOne(old(View()))
    {
      hide Homed, Shape, PoolView, LinkView, CtlView, Move, Pull, Push, Handles, Without, REFUSAL;
      var t := transPending[0];
      PendingHead();
      HomedMove(PoolView(), t.handle, Finished(t.Value(), REFUSAL, Lost));
      MoveThenWrite(PoolView(), t.handle, Finished(t.Value(), REFUSAL, Lost));
      QueueTake(Status.Pending, t);
      QueueInsert(Status.Done, t);
      MarkFailed(t);
      EventAdd(TransError(t.handle));
    }

    lemma PendingHead()
      requires Rep() && transPending != []
      ensures var t := transPending[0];
              && Known(live, t) && t.status == Status.Pending
              && HasHead(PoolView(), PoolView().pending, Status.Pending) && PoolView().pending[0] == t.handle
              && PoolView().txns[t.handle] == t.Value()
    {
      HeadIsHome(transPending, Status.Pending);
      hide Homed, Handles;
    }

    /** Everything that was under way fails, and is reported. */
    method HandleConnError(isError: bool)
      requires Rep()
      modifies this, live.Values
      ensures Rep() && live == old(live) && View() == ConnFail(old(View()), isError)
    {
      hide Homed, Shape, PoolView, LinkView, CtlView, Emit, FailOne, Engine.TearDown, Handles;
      var wasIdle := status == IdleTimeout;
      var asError := isError && status != Disconnecting && status != IdleTimeout;
      DropLink();
      if !wasIdle {
        ReportReady();
      }
      ghost var v := View();
      Counts();
      while transPending != []
        invariant Rep() && live == old(live) && FailAll(View()) == FailAll(v)
        invariant |PoolView().pending| == |transPending|
        decreases |PoolView().pending|
      {
        FailFirst();
        Counts();
      }
      EventAdd(if asError then ConnError else ConnDisconnect);
    }

    /** The ready transactions are told that they were not sent. */
    method ReportReady()
      requires Rep()
      modifies `events, `hist
      ensures Rep() && View() == NoConnectAll(old(View()), old(PoolView()).ready)
    {
      hide Homed, Shape, LinkView, CtlView, Emit;
      var i := 0;
      while i < |transReady|
        invariant 0 <= i <= |transReady|
        invariant NoConnectAll(View(), Handles(transReady)[i..]) == NoConnectAll(old(View()), Handles(transReady))
      {
        EventAdd(TransNoConnect(transReady[i].handle));
        assert Handles(transReady)[i..][1..] == Handles(transReady)[i + 1..];
        i := i + 1;
      }
    }
  
    // ----- reading -----

    method MarkAnswered(t: Trans, data: seq<byte>)
      requires Shape() && Known(live, t)
      modifies t
      ensures Shape()
      ensures View() == WithPool(old(View()), Edit(old(PoolView()), t.handle,
                                                   Settled(old(t.Value()), BuildResponse(data), Answered(data))))
    {
      hide PoolView, LinkView, CtlView, KeyValue.Decode, ResponseKind.KindOf;
      t.status, t.fate := Status.Done, Answered(data);
      var kind := ResponseKind.DetermineResponseType(data);
      match kind {
        case KV =>
          var params := KeyValue.DecodeLoop(data);
          t.response := KeyValues(params);
        case CSV => t.response := Csv(data);
        case BULK => t.response := Bulk(data);
      }
      OnlyWrote(t);
      hide Shape;
    }

    /** A pending transaction gets its reply and changes queues. */
    method TakeReply(t: Trans, m: Framing.Message)
      requires Rep() && Known(live, t) && t.status == Status.Pending
      modifies this, t
      ensures Rep() && live == old(live)
      ensures t.handle in old(PoolView()).txns && View() == Answer(old(View()), t.handle, m)
    {
      hide Homed, PoolView, LinkView, CtlView, Move, Pull, Push, Handles, Without, BuildResponse;
      ValueOf(t);
      var d := m.data;
      HomedMove(PoolView(), t.handle, Settled(t.Value(), BuildResponse(d), Answered(d)));
      MoveWritten(PoolView(), t.handle, Settled(t.Value(), BuildResponse(d), Answered(d)));
      MarkAnswered(t, d);
      hide Shape;
      QueueTake(Status.Pending, t);
      QueueInsert(Status.Done, t);
      hist := hist.(replies := hist.replies + [Reply(t.handle, m)], homes := hist.homes + [|hist.past|]);
    }

    /** Who waits for this id? */
    method LookUp(id: nat) returns (t: Trans?)
      requires Rep()
      ensures t == null ==> PendingHolder(PoolView(), id) == None
      ensures t != null ==> Known(live, t) && t.status == Status.Pending && PendingHolder(PoolView(), id) == Some(t.handle)
    {
      hide Homed, Handles, AllKnown;
      if id !in transIdMap {
        return null;
      }
      HeldAt(live, transIdMap[id]);
      if transIdMap[id].status != Status.Pending {
        return null;
      }
      t := transIdMap[id];
    }

    /** The body of a frame: the number must read, and FS must follow. */
    method ParseMsg(msg: seq<byte>) returns (wait: bool, error: bool, t: Trans?)
      requires Rep()
      modifies this, live.Values
      ensures Rep() && live == old(live)
      ensures match Framing.ParseBody(msg)
              case None => error && !wait && View() == old(View())
              case Some(m) =>
                !error && match PendingHolder(old(PoolView()), m.id)
                          case None => wait && View() == old(View())
                          case Some(h) => !wait && t != null && t.handle == h && h in old(PoolView()).txns
                                          && View() == Answer(old(View()), h, m)
      ensures t != null ==> Known(live, t)
    {
      hide Homed, Shape, PoolView, LinkView, CtlView, Answer, PendingHolder, Decimal.ReadUint;
      wait, error, t := false, false, null;
      var number := Decimal.ReadUint(msg);
      if number == None {
        return false, true, null;
      }
      var (id, tail) := number.value;
      if tail == [] || tail[0] != FS {
        return false, true, null;
      }
      t := LookUp(id);
      if t == null {
        return true, false, null;
      }
      TakeReply(t, Framing.Message(id, tail[1..]));
    }

    method ConsumeFrame(n: nat, ghost m: Framing.Message)
      requires n <= |inbuf|
      modifies `inbuf, `hist
      ensures View() == Consume(old(View()), m, old(inbuf)[n..]) && inbuf == old(inbuf)[n..]
    {
      hide PoolView, CtlView;
      inbuf := inbuf[n..];
      hist := hist.(frames := hist.frames + [m]);
    }
  
    lemma Inbuf()
      ensures View().link.inbuf == inbuf && View().link.status == status && View().pool == PoolView()
      ensures View().link.pingTxn == if pingTxn == null then None else Some(pingTxn.handle)
    {
      hide PoolView, CtlView;
    }

    /** A frame goes that is no message. */
    method DropFrame(n: nat)
      requires n <= |inbuf|
      modifies `inbuf
      ensures View() == old(View()).(link := old(View()).link.(inbuf := old(inbuf)[n..]))
      ensures old(Rep()) ==> Rep()
    {
      hide PoolView, CtlView, Shape, Homed;
      inbuf := inbuf[n..];
    }

    /** Looks at the front of the input buffer and, if a frame is complete there,
        takes it off, also when it does not parse. `orphan` says that the frame was
        for nobody. */
    method ParseFrame() returns (wait: bool, error: bool, orphan: bool, t: Trans?)
      requires Rep()
      modifies this, live.Values
      ensures Rep() && live == old(live)
      ensures match Framing.NextFrame(old(inbuf))
              case NeedMore => wait && !error && !orphan && View() == old(View())
              case Malformed => error && !wait && !orphan && View() == Discarded(old(View()))
              case Got(m, rest) =>
                && !wait && !error && |inbuf| < |old(inbuf)|
                && match PendingHolder(old(PoolView()), m.id)
                   case None => orphan && View() == Consume(old(View()), m, rest)
                   case Some(h) => !orphan && t != null && t.handle == h && Known(live, t)
                                   && View() == Consume(Answer(old(View()), h, m), m, rest)
    {
      hide Homed, Shape, PoolView, LinkView, CtlView, Answer, PendingHolder, Consume, Framing.ParseBody;
      wait, error, orphan, t := false, false, false, null;
      if |inbuf| < Framing.MIN_FRAME {
        return true, false, false, null;
      }
      Inbuf();
      if inbuf[0] != STX {
        return false, true, false, null;
      }
      var end := FirstIndex(inbuf, ETX);
      if end == |inbuf| {
        return true, false, false, null;
      }
      if end + 1 < Framing.MIN_FRAME {
        DropFrame(end + 1);
        return false, true, false, null;
      }
      var msg := inbuf[1..end];
      ghost var s := View();
      orphan, error, t := ParseMsg(msg);
      if error {
        Inbuf();
        DropFrame(end + 1);
        return false, true, false, null;
      }
      ghost var m := Framing.ParseBody(msg).value;
      ConsumeLater(s, m, s.link.inbuf[end + 1..]);
      Inbuf();
      ConsumeFrame(end + 1, m);
    }

    /** Takes frames off until one completes a transaction. */
    method ParseTransBuffer() returns (wait: bool, error: bool, t: Trans?)
      requires Rep()
      modifies this, live.Values
      ensures Rep() && live == old(live)
      ensures var (r, parsed) := ParseBuffer(old(View()));
              match parsed
              case Starved => wait && !error && View() == r
              case Broken => error && !wait && View() == Discarded(r)
              case Completed(h) => !wait && !error && t != null && t.handle == h && Known(live, t) && View() == r
    {
      hide Homed, Shape, PoolView, LinkView, CtlView, Answer, PendingHolder, Consume, Framing.NextFrame;
      var orphan := true;
      wait, error, t := false, false, null;
      while orphan
        invariant Rep() && live == old(live)
        invariant orphan ==> ParseBuffer(View()) == ParseBuffer(old(View()))
        invariant !orphan ==> var (r, parsed) := ParseBuffer(old(View()));
              match parsed
              case Starved => wait && !error && View() == r
              case Broken => error && !wait && View() == Discarded(r)
              case Completed(h) => !wait && !error && t != null && t.handle == h && Known(live, t) && View() == r
        decreases orphan, |inbuf|
      {
        Inbuf();
        Holders(View());
        wait, error, orphan, t := ParseFrame();
      }
    }

    /** Reads on until the buffer is exhausted, broken, or the ping is answered. */
    method ReadMessages() returns (end: ReadEnd)
      requires Rep()
      modifies this, live.Values
      ensures Rep() && live == old(live)
      ensures var (r, e) := ReadLoop(old(View())); end == e && View() == if e == Failed then Discarded(r) else r
      ensures end == PingAnswered ==> pingTxn != null && Known(live, pingTxn)
    {
      hide Homed, Shape, PoolView, LinkView, CtlView, ParseBuffer, Report;
      while true
        invariant Rep() && live == old(live) && ReadLoop(View()) == ReadLoop(old(View()))
        decreases |View().link.inbuf|
      {
        ParseKeepsPing(View());
        var wait, error, t := ParseTransBuffer();
        if wait {
          return Drained;
        }
        if error {
          return Failed;
        }
        Inbuf();
        SamePointer(t);
        ReportKeepsLink(View(), t.handle);
        if pingTxn != null && t == pingTxn {
          return PingAnswered;
        }
        ReportDone(t);
      }
    }

    lemma SamePointer(t: Trans)
      requires Shape() && Known(live, t)
      ensures t.handle in PoolView().txns && (pingTxn != null && pingTxn.handle == t.handle ==> pingTxn == t)
    {
      HeldAt(live, t);
    }

    method ReportDone(t: Trans)
      requires Rep() && Known(live, t)
      modifies this, live.Values
      ensures Rep() && live == old(live)
      ensures t.handle in old(PoolView()).txns && View() == Report(old(View()), t.handle)
    {
      hide Homed, Shape, PoolView, LinkView, CtlView;
      EventAdd(TransDone(t.handle));
      KillTimeout(t);
    }
  
    // ----- the ping -----

    /** A ping goes straight to the pending queue. */
    method QueuePing(draws: seq<nat>) returns (t: Trans)
      requires Rep() && forall k :: 0 <= k < |draws| ==> 1 <= draws[k] <= MAX_ID
      requires exists k :: 0 <= k < |draws| && draws[k] !in transIdMap
      modifies this
      ensures Shape() && fresh(t) && t.handle == old(PoolView()).next
      ensures live == old(live)[t.handle := t] && t.Value() == PingTxn(t.id).(request := KeyValue.PING_REQUEST)
      ensures FreeId(old(PoolView()), t.id)
      ensures View() == WithPool(old(View()), Add(old(PoolView()), t.Value()))
    {
      hide Homed, Shape, PoolView, LinkView, CtlView, Push, Handles;
      var id := DrawId(draws);
      t := new Trans(next, id, true);
      var _ := t.SetParam(KeyValue.ACTION, KeyValue.PING_WORD);
      t.status := Status.Pending;
      PoolFacts(id);
      AddInSteps(PoolView(), t.Value());
      Adopt(t);
      QueueInsert(Status.Pending, t);
    }

    /** The ping is queued, and printed at once. */
    method PingRequest(draws: seq<nat>) returns (t: Trans)
      requires Rep() && forall k :: 0 <= k < |draws| ==> 1 <= draws[k] <= MAX_ID
      requires exists k :: 0 <= k < |draws| && draws[k] !in transIdMap
      modifies this
      ensures Rep() && fresh(t) && Known(live, t) && t.handle == old(PoolView()).next
      ensures FreeId(old(PoolView()), t.id) && View() == PingPrinted(old(View()), t.id)
      ensures live == old(live)[t.handle := t]
    {
      hide Homed, Shape, PoolView, LinkView, CtlView, KeyValue.Payload, Structure, Add;
      t := QueuePing(draws);
      PingInSteps(old(View()), t.id);
      TransStructure(t);
      HomedAdd(old(PoolView()), PingTxn(t.id));
    }

    /** The I/O layer takes the first `n` bytes of the output buffer. */
    method WriteFromBuf(n: nat)
      requires n <= |outbuf|
      modifies `outbuf, `hist
      ensures View() == WriteOut(old(View()), n)
    {
      hide PoolView, CtlView;
      hist := hist.(wire := hist.wire + outbuf[..n]);
      outbuf := outbuf[n..];
    }

    /** First part: kill the timer, take the ping off its queue, drop the lock. */
    method CleanupPing(ghost k: Resume)
      requires Rep() && (pingTxn != null ==> Known(live, pingTxn))
      modifies this
      ensures Rep() && live == old(live) && View() == CleanupTake(old(View()), k)
    {
      hide Homed, Shape, PoolView, LinkView, CtlView, Pull;
      Inbuf();
      TimerSet(NoTimer);
      if pingTxn != null {
        HomedPull(PoolView(), pingTxn.handle);
        QueueTake(Status.Pending, pingTxn);
      }
      SetPc(Cleanup(k));
    }

    ghost method SetPc(to: Pc)
      modifies `pc
      ensures View() == Goto(old(View()), to)
    {
      hide PoolView, LinkView;
      pc := to;
    }

    /** Last part, then: announce, send what is ready, create the idle timer. */
    method SetConnected()
      requires Rep()
      modifies this, live.Values
      ensures Rep() && live == old(live) && View() == OpenUp(old(View()))
    {
      hide Homed, Shape, PoolView, CtlView, Engine.SendMessages, Emit;
      MarkConnected();
      EventAdd(ConnConnected);
      SendMessages();
      hide LinkView;
      IdleSetting();
      if idleTimeout != 0 {
        TimerSet(Stopped);
      }
    }

    lemma IdleSetting()
      ensures View().link.idleTimeout == idleTimeout
    {
      hide PoolView, CtlView;
    }

    method MarkConnected()
      requires Rep()
      modifies `pingTxn, `status
      ensures Rep() && View() == old(View()).(link := old(View()).link.(pingTxn := None, status := Connected))
    {
      hide PoolView, CtlView, Homed;
      pingTxn := null;
      status := Connected;
      hide LinkView;
    }

    method ForgetPing()
      requires Rep()
      modifies `pingTxn
      ensures Rep() && View() == old(View()).(link := old(View()).link.(pingTxn := None))
    {
      hide PoolView, CtlView, Homed;
      pingTxn := null;
    }

    // ----- the deferred deletions -----

    method DrainDeferred()
      requires Rep()
      modifies this
      ensures Rep() && View() == DrainAll(old(View()))
    {
      hide Homed, Shape, PoolView, LinkView, CtlView, DrainHead, DeleteNow;
      Counts();
      while transDelayRm != []
        invariant Rep() && DrainAll(View()) == DrainAll(old(View()))
        invariant |PoolView().delayRm| == |transDelayRm|
        decreases |PoolView().delayRm|
      {
        DrainFirst();
        Counts();
      }
    }

    method DrainFirst()
      requires Rep() && transDelayRm != []
      modifies this
      ensures Rep()
      ensures var p := old(PoolView());
              && p.delayRm != [] && p.delayRm[0] in p.txns && |PoolView().delayRm| < |p.delayRm|
              && View() == DeleteNow(old(View()), DrainHead(p))
    {
      hide Homed, Shape, PoolView, LinkView, CtlView, Erase, Handles;
      DeferredHead();
      var t := transDelayRm[0];
      DropDeferred();
      DrainShorter(old(PoolView()));
      TransDeleteUnlocked(t);
    }

    lemma DeferredHead()
      requires Rep() && transDelayRm != []
      ensures var t := transDelayRm[0]; var p := PoolView();
              && Known(live, t) && p.delayRm != [] && p.delayRm[0] == t.handle && t.handle in p.txns
              && t.handle !in p.delayRm[1..]
    {
      var t := transDelayRm[0];
      assert t in transDelayRm;
      HeldAt(live, t);
      Effects.HeadNotInTail(PoolView().delayRm);
      hide NoDup, Home;
    }

    method DropDeferred()
      requires Rep() && transDelayRm != []
      modifies `transDelayRm
      ensures Rep()
      ensures PoolView().delayRm == old(PoolView()).delayRm[1..]
      ensures View() == WithPool(old(View()), old(PoolView()).(delayRm := PoolView().delayRm))
    {
      hide LinkView, CtlView, Home, TxnsOf, IndexOf, IndexKnown, Addressed;
      Effects.HeadNotInTail(PoolView().delayRm);
      assert Handles(transDelayRm[1..]) == Handles(transDelayRm)[1..];
      hide NoDup;
      transDelayRm := transDelayRm[1..];
    }
  
    // ----- the end -----

    /** The transactions of `q` are freed, with the timers they have. */
    ghost method NoteFreed(q: seq<Handle>)
      modifies `freed, `dangling
      ensures View() == WithPool(old(View()), old(PoolView()).(freed := old(PoolView()).freed + q,
                                 dangling := old(PoolView()).dangling + Timed(old(PoolView()).txns, q)))
      ensures old(Shape()) ==> Shape()
    {
      hide LinkView, CtlView, Handles, TxnsOf, IndexOf, Shape, Timed;
      freed, dangling := freed + q, dangling + Timed(TxnsOf(live), q);
    }

    method QueueEmpty(st: Status)
      requires Shape()
      modifies `transNew, `transReady, `transPending, `transDone
      ensures Shape() && View() == WithPool(old(View()), Cleared(old(PoolView()), st))
    {
      hide LinkView, CtlView, Handles, TxnsOf, IndexOf, AllKnown, IndexKnown, Addressed;
      NothingLeft(live);
      match st {
        case New => transNew := [];
        case Ready => transReady := [];
        case Pending => transPending := [];
        case Done => transDone := [];
      }
    }

    /** Destroys a queue with everything in it. */
    method QueueDestroy(st: Status)
      requires Shape()
      modifies `transNew, `transReady, `transPending, `transDone, `freed, `dangling
      ensures Shape()
      ensures View() == WithPool(old(View()), Emptied(old(PoolView()), st))
    {
      hide LinkView, CtlView, PoolView, Shape;
      NoteFreed(Queue(PoolView(), st));
      QueueEmpty(st);
    }

    /** The index and the heap are gone. */
    method ClearIndex()
      requires Shape() && transNew == [] && transReady == [] && transPending == [] && transDone == [] && transDelayRm == []
      modifies `transIdMap, `live
      ensures Shape() && View() == WithPool(old(View()), old(PoolView()).(txns := map[], idMap := map[]))
    {
      hide LinkView, CtlView, Handles, TxnsOf, IndexOf, AllKnown, IndexKnown, Addressed;
      NothingLeft(map[]);
      transIdMap, live := map[], map[];
    }

    /** Destroys the four queues with everything in them, and the index. */
    method FreeQueues()
      requires Shape() && transDelayRm == []
      modifies `transNew, `transReady, `transPending, `transDone, `transIdMap, `live, `freed, `dangling
      ensures Rep() && View() == WithPool(old(View()), FreeAll(old(PoolView())))
    {
      hide LinkView, CtlView, Homed, Shape, PoolView, Handles;
      AllCounts();
      HomedFreed(PoolView());
      EmptiedAll(PoolView());
      QueueDestroy(Status.New);
      QueueDestroy(Status.Ready);
      QueueDestroy(Status.Pending);
      QueueDestroy(Status.Done);
      AllCounts();
      ClearIndex();
    }

    lemma AllCounts()
      ensures var p := PoolView();
              && |p.newq| == |transNew| && |p.ready| == |transReady| && |p.pending| == |transPending|
              && |p.done| == |transDone| && |p.delayRm| == |transDelayRm|
    {
    }

    method Dismantle()
      requires Rep() && transDelayRm == []
      modifies this
      ensures Rep() && View() == Demolish(old(View()))
    {
      hide Homed, Shape, PoolView, CtlView, FreeAll;
      FreeQueues();
      SetPc(Gone);
      timer, io := NoTimer, NoIo;
    }
  }
}
