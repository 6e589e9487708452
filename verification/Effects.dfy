/** What the engine's loops do, in closed form: the take-first loops over the
    ready and pending queues, the parse loop over the input buffer, and the
    draining of the deferred deletions. */
module Effects {
  import opened Bytes
  import opened Pool
  import opened Engine
  import opened Core
  import opened CoreMoves
  import KeyValue
  import Framing

  // ----- sending -----

  function PrintsOf(s: State, q: seq<Handle>): seq<Print> {
    if q == [] then []
    else (if q[0] in s.pool.txns then [PrintOf(s, q[0])] else []) + PrintsOf(s, q[1..])
  }

  /** The transactions of `q` put on the wire, the others as they were. */
  function SentAll(txns: map<Handle, Txn>, q: seq<Handle>): map<Handle, Txn> {
    map h | h in txns :: if h in q then Sent(txns[h]) else txns[h]
  }

  /** The state after the whole ready queue went out. */
  function Promoted(s: State): State {
    var ps := PrintsOf(s, s.pool.ready);
    s.(pool := s.pool.(txns := SentAll(s.pool.txns, s.pool.ready), ready := [], pending := s.pool.pending + s.pool.ready),
       link := s.link.(outbuf := s.link.outbuf + Stream(ps)),
       hist := s.hist.(printed := s.hist.printed + ps))
  }

  lemma {:induction false} PrintsOfSame(s: State, r: State, q: seq<Handle>)
    requires forall h :: h in q ==> (h in s.pool.txns <==> h in r.pool.txns)
    requires forall h :: h in q && h in s.pool.txns ==> s.pool.txns[h] == r.pool.txns[h]
    ensures PrintsOf(s, q) == PrintsOf(r, q)
  {
    hide KeyValue.Payload;
    if q != [] {
      PrintsOfSame(s, r, q[1..]);
    }
  }

  lemma {:induction false} StreamCons(pr: Print, ps: seq<Print>)
    ensures Stream([pr] + ps) == Framing.Frame(pr.msg.id, pr.msg.data) + Stream(ps)
    decreases |ps|
  {
    hide Framing.Frame;
    if ps == [] {
      assert [pr] + ps == [] + [pr];
      StreamSnoc([], pr);
      assert Stream([]) == [];
    } else {
      var last := ps[|ps| - 1];
      var init := ps[..|ps| - 1];
      StreamCons(pr, init);
      assert [pr] + ps == ([pr] + init) + [last];
      assert ps == init + [last];
      StreamSnoc([pr] + init, last);
      StreamSnoc(init, last);
    }
  }

  lemma PromotedQueues(s: State)
    requires HasHead(s.pool, s.pool.ready, Status.Ready) && NoDup(s.pool.ready)
    ensures Promoted(PromoteOne(s)).pool == Promoted(s).pool
  {
    hide KeyValue.Payload, Framing.Frame, Move, PromoteOne, Stream, PrintOf, SentAll, NoDup, PrintsOf, Sent;
    var q, r := s.pool.ready, PromoteOne(s);
    PromoteParts(s);
    HeadNotInTail(q);
    PromotedTxns(s.pool.txns, q);
    SentIsPending(s.pool.txns[q[0]]);
    ReadyToPending(s.pool, q[0], Sent(s.pool.txns[q[0]]));
    assert s.pool.pending + [q[0]] + q[1..] == s.pool.pending + q;
  }

  lemma SentIsPending(t: Txn)
    ensures Sent(t).status == Status.Pending
  {
  }

  lemma ReadyToPending(p: Pool, h: Handle, t: Txn)
    requires h in p.txns && p.txns[h].status == Status.Ready && t.status == Status.Pending
    ensures Move(p, h, t) == p.(txns := p.txns[h := t], ready := Without(p.ready, h), pending := p.pending + [h])
  {
    hide Without;
  }

  lemma PromotedPrints(s: State)
    requires HasHead(s.pool, s.pool.ready, Status.Ready) && NoDup(s.pool.ready)
    requires forall h :: h in s.pool.ready ==> h in s.pool.txns
    ensures var h, t, r := s.pool.ready[0], s.pool.ready[1..], PromoteOne(s);
            r.pool.ready == t && PrintsOf(r, t) == PrintsOf(s, t) && PrintsOf(s, s.pool.ready) == [PrintOf(s, h)] + PrintsOf(s, t)
  {
    hide KeyValue.Payload, Framing.Frame, Move, PromoteOne, Stream, PrintOf, NoDup;
    var q, r := s.pool.ready, PromoteOne(s);
    PromoteParts(s);
    HeadNotInTail(q);
    PrintsOfSame(s, r, q[1..]);
  }

  lemma PromotedWire(s: State)
    requires HasHead(s.pool, s.pool.ready, Status.Ready) && NoDup(s.pool.ready)
    requires forall h :: h in s.pool.ready ==> h in s.pool.txns
    ensures Promoted(PromoteOne(s)).link == Promoted(s).link && Promoted(PromoteOne(s)).hist == Promoted(s).hist
  {
    hide KeyValue.Payload, Framing.Frame, Move, PromoteOne, Stream, PrintOf, SentAll, NoDup, PrintsOf;
    var h, t := s.pool.ready[0], s.pool.ready[1..];
    PromoteParts(s);
    PromotedPrints(s);
    var pr, rest := PrintOf(s, h), PrintsOf(s, t);
    StreamCons(pr, rest);
    assert s.hist.printed + [pr] + rest == s.hist.printed + ([pr] + rest);
    var f := Framing.Frame(pr.msg.id, pr.msg.data);
    assert s.link.outbuf + f + Stream(rest) == s.link.outbuf + (f + Stream(rest));
  }

  /** Promoting the head, then the rest, is promoting all. */
  lemma PromotedStep(s: State)
    requires HasHead(s.pool, s.pool.ready, Status.Ready) && NoDup(s.pool.ready)
    requires forall h :: h in s.pool.ready ==> h in s.pool.txns
    ensures Promoted(PromoteOne(s)) == Promoted(s)
  {
    hide NoDup, HasHead, PrintsOf, Stream, SentAll, Move;
    PromotedQueues(s);
    PromotedWire(s);
    PromoteParts(s);
    hide PromoteOne;
  }

  lemma HeadNotInTail(q: seq<Handle>)
    requires q != [] && NoDup(q)
    ensures q[0] !in q[1..] && NoDup(q[1..]) && q == [q[0]] + q[1..]
  {
    assert forall i :: 0 <= i < |q[1..]| ==> q[1..][i] == q[i + 1];
  }

  lemma PromotedTxns(txns: map<Handle, Txn>, q: seq<Handle>)
    requires q != [] && q[0] in txns && q[0] !in q[1..]
    ensures SentAll(txns[q[0] := Sent(txns[q[0]])], q[1..]) == SentAll(txns, q)
  {
    hide KeyValue.Payload;
    assert q == [q[0]] + q[1..];
  }

  /** Which parts of the pool a move leaves alone. */
  lemma MoveFrame(p: Pool, h: Handle, t: Txn)
    requires h in p.txns && t.status != p.txns[h].status
    ensures var r := Move(p, h, t);
            && r.txns == p.txns[h := t] && r.idMap == p.idMap && r.delayRm == p.delayRm
            && r.next == p.next && r.freed == p.freed && r.dangling == p.dangling
            && (forall st :: Queue(r, st) == if st == t.status then Queue(p, st) + [h]
                                             else if st == p.txns[h].status then Without(Queue(p, st), h)
                                             else Queue(p, st))
            && r.newq == Queue(r, Status.New) && r.ready == Queue(r, Status.Ready)
            && r.pending == Queue(r, Status.Pending) && r.done == Queue(r, Status.Done)
  {
    hide Without;
  }

  lemma PromotedNone(s: State)
    requires s.pool.ready == []
    ensures Promoted(s) == s
  {
    assert SentAll(s.pool.txns, []) == s.pool.txns;
    assert s.pool.pending + [] == s.pool.pending;
    assert s.link.outbuf + [] == s.link.outbuf && s.hist.printed + [] == s.hist.printed;
    assert Stream([]) == [];
  }

  lemma QueueFacts(s: State, away: set<Handle>)
    requires CoreOk(s, away)
    ensures NoDup(s.pool.ready) && NoDup(s.pool.pending) && NoDup(s.pool.delayRm)
    ensures forall h :: h in s.pool.ready ==> h in s.pool.txns && s.pool.txns[h].status == Status.Ready
    ensures forall h :: h in s.pool.pending ==> h in s.pool.txns && s.pool.txns[h].status == Status.Pending
    ensures forall h :: h in s.pool.delayRm ==> h in s.pool.txns
  {
    hide PoolOk, PrintsOk, InSendOrder, WireOk, PastOk, InputOk, TraceOk, BatchOk, RepliesOk;
    ReadyAreOld(s.pool, away);
  }

  /** The send loop puts the whole ready queue, in order, on the wire and on the
      pending queue, and touches nothing else. */
  lemma {:induction false} PromoteAllIs(s: State, away: set<Handle>)
    requires CoreOk(s, away)
    ensures PromoteAll(s) == Promoted(s)
    decreases |s.pool.ready|
  {
    hide CoreOk, Promoted, PromoteOne;
    if s.pool.ready == [] {
      PromotedNone(s);
    } else {
      CorePromoteOne(s, away);
      PromoteAllIs(PromoteOne(s), away);
      QueueFacts(s, away);
      PromotedStep(s);
    }
  }

  // ----- losing the connection -----

  function NoConnects(q: seq<Handle>): seq<Event> {
    seq(|q|, i requires 0 <= i < |q| => TransNoConnect(q[i]))
  }

  function Errors(q: seq<Handle>): seq<Event> {
    seq(|q|, i requires 0 <= i < |q| => TransError(q[i]))
  }

  function Marks(es: seq<Event>): seq<Mark> {
    seq(|es|, i requires 0 <= i < |es| => Queues(es[i]))
  }

  function EmitAll(s: State, es: seq<Event>): State {
    s.(ctl := s.ctl.(batch := s.ctl.batch + es), hist := s.hist.(log := s.hist.log + Marks(es)))
  }

  lemma EmitAllNone(s: State)
    ensures EmitAll(s, []) == s
  {
    assert s.ctl.batch + [] == s.ctl.batch && s.hist.log + Marks([]) == s.hist.log;
  }

  lemma EmitAllOne(s: State, e: Event)
    ensures EmitAll(s, [e]) == Emit(s, e)
  {
    assert Marks([e]) == [Queues(e)];
  }

  lemma EmitAllTwo(s: State, a: seq<Event>, b: seq<Event>)
    ensures EmitAll(EmitAll(s, a), b) == EmitAll(s, a + b)
  {
    assert Marks(a) + Marks(b) == Marks(a + b);
    assert s.hist.log + Marks(a) + Marks(b) == s.hist.log + Marks(a + b);
    assert s.ctl.batch + a + b == s.ctl.batch + (a + b);
  }

  lemma {:induction false} NoConnectAllIs(s: State, q: seq<Handle>)
    ensures NoConnectAll(s, q) == EmitAll(s, NoConnects(q))
    decreases |q|
  {
    if q == [] {
      EmitAllNone(s);
      assert NoConnects(q) == [];
    } else {
      NoConnectAllIs(Emit(s, TransNoConnect(q[0])), q[1..]);
      EmitAllOne(s, TransNoConnect(q[0]));
      EmitAllTwo(s, [TransNoConnect(q[0])], NoConnects(q[1..]));
      assert NoConnects(q) == [TransNoConnect(q[0])] + NoConnects(q[1..]);
      hide EmitAll, Emit;
    }
  }

  function LostAll(txns: map<Handle, Txn>, q: seq<Handle>): map<Handle, Txn> {
    map h | h in txns :: if h in q then Finished(txns[h], REFUSAL, Lost) else txns[h]
  }

  /** The pool after every pending transaction failed. */
  function Forsaken(p: Pool): Pool {
    p.(txns := LostAll(p.txns, p.pending), pending := [], done := p.done + p.pending)
  }

  lemma LostTxns(txns: map<Handle, Txn>, q: seq<Handle>)
    requires q != [] && q[0] in txns && q[0] !in q[1..]
    ensures LostAll(txns[q[0] := Finished(txns[q[0]], REFUSAL, Lost)], q[1..]) == LostAll(txns, q)
  {
    hide REFUSAL;
    assert q == [q[0]] + q[1..];
  }

  function FailedHead(p: Pool): Pool
    requires HasHead(p, p.pending, Status.Pending)
  {
    Move(p, p.pending[0], Finished(p.txns[p.pending[0]], REFUSAL, Lost))
  }

  lemma ForsakenStep(p: Pool)
    requires HasHead(p, p.pending, Status.Pending) && NoDup(p.pending)
    ensures Forsaken(FailedHead(p)) == Forsaken(p) && FailedHead(p).pending == p.pending[1..]
  {
    hide REFUSAL;
    var q := p.pending;
    var h, t := q[0], q[1..];
    HeadNotInTail(q);
    assert Without(q, h) == t;
    LostTxns(p.txns, q);
    MoveFrame(p, h, Finished(p.txns[h], REFUSAL, Lost));
    assert p.done + [h] + t == p.done + q;
    hide LostAll, Move, Without;
  }

  lemma ForsakenNone(s: State)
    requires s.pool.pending == []
    ensures EmitAll(WithPool(s, Forsaken(s.pool)), Errors(s.pool.pending)) == s
  {
    hide REFUSAL;
    EmitAllNone(s);
    assert Errors([]) == [];
    assert LostAll(s.pool.txns, []) == s.pool.txns;
    assert s.pool.done + [] == s.pool.done;
  }

  lemma FailStep(s: State)
    requires HasHead(s.pool, s.pool.pending, Status.Pending) && NoDup(s.pool.pending)
    ensures var r := FailOne(s);
            EmitAll(WithPool(r, Forsaken(r.pool)), Errors(r.pool.pending))
            == EmitAll(WithPool(s, Forsaken(s.pool)), Errors(s.pool.pending))
  {
    hide REFUSAL, NoDup, Forsaken, EmitAll, Emit, Move, Finished;
    var q, r := s.pool.pending, FailOne(s);
    ForsakenStep(s.pool);
    var done := WithPool(s, Forsaken(s.pool));
    EmitPool(WithPool(s, FailedHead(s.pool)), TransError(q[0]), Forsaken(s.pool));
    EmitAllOne(done, TransError(q[0]));
    EmitAllTwo(done, [TransError(q[0])], Errors(q[1..]));
    assert Errors(q) == [TransError(q[0])] + Errors(q[1..]);
  }

  lemma EmitPool(s: State, e: Event, p: Pool)
    ensures WithPool(Emit(s, e), p) == Emit(WithPool(s, p), e)
    ensures Emit(s, e).pool == s.pool
  {
  }

  /** The failure loop moves every pending transaction to done, with the faked
      refusal, and reports each, in queue order. */
  lemma {:induction false} FailAllIs(s: State, away: set<Handle>)
    requires CoreOk(s, away)
    ensures FailAll(s) == EmitAll(WithPool(s, Forsaken(s.pool)), Errors(s.pool.pending))
    decreases |s.pool.pending|
  {
    hide CoreOk, Forsaken, FailOne, EmitAll, Errors;
    if s.pool.pending == [] {
      ForsakenNone(s);
    } else {
      CoreFailOne(s, away);
      FailAllIs(FailOne(s), away);
      QueueFacts(s, away);
      FailStep(s);
    }
  }

  /** The batch a lost connection adds: NOCONNECT for each ready transaction,
      unless the connection was closing for idleness; ERROR for each pending one;
      then the one connection event. Both in queue order. */
  function LossReport(s: State, isError: bool): seq<Event> {
    (if s.link.status == IdleTimeout then [] else NoConnects(s.pool.ready))
    + Errors(s.pool.pending) + [FinalEvent(s.link.status, isError)]
  }

  /** A lost connection in one expression: the link is reset, the pending
      transactions have failed, the ready ones are untouched, and the report is
      queued. */
  lemma ConnFailIs(s: State, isError: bool, away: set<Handle>)
    requires CoreOk(s, away)
    ensures ConnFail(s, isError) == EmitAll(WithPool(TearDown(s), Forsaken(s.pool)), LossReport(s, isError))
  {
    hide CoreOk, Forsaken, FailAll, NoConnectAll, Errors, NoConnects, FinalEvent;
    var s1 := TearDown(s);
    var e := FinalEvent(s.link.status, isError);
    var ncs := if s.link.status == IdleTimeout then [] else NoConnects(s.pool.ready);
    CoreTearDown(s, away);
    CoreNoConnectAll(s1, s.pool.ready, away);
    NoConnectAllIs(s1, s.pool.ready);
    EmitAllNone(s1);
    var s2 := EmitAll(s1, ncs);
    FailAllIs(s2, away);
    EmitAllTwo(s1.(pool := Forsaken(s.pool)), ncs, Errors(s.pool.pending));
    EmitAllTwo(s1.(pool := Forsaken(s.pool)), ncs + Errors(s.pool.pending), [e]);
    EmitAllOne(EmitAll(s1.(pool := Forsaken(s.pool)), ncs + Errors(s.pool.pending)), e);
    assert WithPool(s2, Forsaken(s.pool)) == EmitAll(s1.(pool := Forsaken(s.pool)), ncs);
    assert s2.pool == s.pool;
  }

  // ----- reading -----

  /** One frame meets the pool: it completes the pending transaction that holds
      its id, or nothing. */
  function Dispatch(s: State, m: Framing.Message): State {
    match PendingHolder(s.pool, m.id)
    case None => s
    case Some(h) => Report(Answer(s, h, m), h)
  }

  function DispatchAll(s: State, ms: seq<Framing.Message>): State
    decreases |ms|
  {
    if ms == [] then s else DispatchAll(Dispatch(s, ms[0]), ms[1..])
  }

  /** The input buffer drained: its frames are history, its tail is left. */
  function Took(s: State, ms: seq<Framing.Message>, rest: seq<byte>): State {
    s.(link := s.link.(inbuf := rest), hist := s.hist.(frames := s.hist.frames + ms))
  }

  lemma {:induction false} DispatchAllFrame(s: State, ms: seq<Framing.Message>, inbuf: seq<byte>, frames: seq<Framing.Message>)
    ensures DispatchAll(s.(link := s.link.(inbuf := inbuf), hist := s.hist.(frames := frames)), ms)
            == DispatchAll(s, ms).(link := s.link.(inbuf := inbuf),
                                   hist := DispatchAll(s, ms).hist.(frames := frames))
    ensures DispatchAll(s, ms).link == s.link
    decreases |ms|
  {
    hide BuildResponse, Move;
    if ms != [] {
      DispatchAllFrame(Dispatch(s, ms[0]), ms[1..], inbuf, frames);
    }
  }

  /** The two nested loops as one loop over frames. */
  lemma ReadLoopFlat(s: State)
    ensures ReadLoop(s) ==
            match Framing.NextFrame(s.link.inbuf)
            case NeedMore => (s, Drained)
            case Malformed => (s, Failed)
            case Got(m, rest) =>
              var s1 := Consume(s, m, rest);
              match PendingHolder(s.pool, m.id)
              case None => ReadLoop(s1)
              case Some(h) =>
                if s.link.pingTxn == Some(h) then (Answer(s1, h, m), PingAnswered)
                else ReadLoop(Report(Answer(s1, h, m), h))
  {
    hide Answer, Report, BuildResponse, Framing.NextFrame;
  }

  /** What is in the buffer when the loop stops. */
  function Leftover(buf: seq<byte>): seq<byte>
    decreases |buf|
  {
    match Framing.NextFrame(buf)
    case NeedMore => buf
    case Malformed => buf
    case Got(_, rest) => Leftover(rest)
  }

  lemma {:induction false} LeftoverIsRest(buf: seq<byte>)
    ensures !Framing.SplitAll(buf).bad ==> Leftover(buf) == Framing.SplitAll(buf).rest
    decreases |buf|
  {
    hide Framing.NextFrame;
    match Framing.NextFrame(buf)
    case NeedMore =>
    case Malformed =>
    case Got(m, rest) => LeftoverIsRest(rest);
  }

  /** No pending transaction is the ping. */
  predicate PingSettled(s: State) {
    s.link.pingTxn.Some? ==> !(s.link.pingTxn.value in s.pool.txns && s.pool.txns[s.link.pingTxn.value].status == Status.Pending)
  }

  function ReadVerdict(buf: seq<byte>): ReadEnd {
    if Framing.SplitAll(buf).bad then Failed else Drained
  }

  lemma DispatchKeepsLink(s: State, m: Framing.Message)
    ensures Dispatch(s, m).link == s.link && Dispatch(s, m).hist.frames == s.hist.frames
    ensures PingSettled(s) ==> PingSettled(Dispatch(s, m))
  {
    hide BuildResponse, Without;
  }

  /** Taking the first frame off before or after dispatching makes no difference. */
  lemma TookCommutes(s: State, m: Framing.Message, rest: seq<byte>)
    ensures Dispatch(Consume(s, m, rest), m) == Consume(Dispatch(s, m), m, rest)
  {
    hide BuildResponse, Move;
  }

  /** Draining the input buffer is folding over its frames: each completes the
      pending holder of its id or nothing, and what is left is the tail after
      the last complete frame. */
  lemma {:induction false} ReadLoopIsFold(s: State)
    requires PingSettled(s)
    ensures var ms := Framing.SplitAll(s.link.inbuf).msgs;
            ReadLoop(s) == (Took(DispatchAll(s, ms), ms, Leftover(s.link.inbuf)), ReadVerdict(s.link.inbuf))
    decreases |s.link.inbuf|
  {
    hide Framing.NextFrame, BuildResponse, Report, Answer, ReadLoop;
    ReadLoopFlat(s);
    var buf := s.link.inbuf;
    match Framing.NextFrame(buf)
    case NeedMore => TookNothing(s);
    case Malformed => TookNothing(s);
    case Got(m, rest) =>
      var s1 := Dispatch(Consume(s, m, rest), m);
      DispatchKeepsLink(Consume(s, m, rest), m);
      ReadLoopIsFold(s1);
      FoldStep(s, m, rest, Framing.SplitAll(rest).msgs, Leftover(rest));
      hide Dispatch, Took;
  }

  lemma FoldStep(s: State, m: Framing.Message, rest: seq<byte>, ms: seq<Framing.Message>, left: seq<byte>)
    ensures Took(DispatchAll(Dispatch(Consume(s, m, rest), m), ms), ms, left)
            == Took(DispatchAll(s, [m] + ms), [m] + ms, left)
  {
    hide BuildResponse, Report, Answer;
    var d := Dispatch(s, m);
    TookCommutes(s, m, rest);
    DispatchKeepsLink(s, m);
    DispatchAllFrame(d, ms, rest, d.hist.frames + [m]);
    DispatchAllFrame(d, ms, d.link.inbuf, d.hist.frames);
    assert d.hist.frames + [m] + ms == s.hist.frames + ([m] + ms);
    hide Dispatch;
    assert ([m] + ms)[1..] == ms;
    assert DispatchAll(s, [m] + ms) == DispatchAll(d, ms);
  }

  lemma TookNothing(s: State)
    ensures Took(DispatchAll(s, []), [], s.link.inbuf) == s
  {
    assert s.hist.frames + [] == s.hist.frames;
  }

  /** The core of the invariant through the whole read loop. */
  lemma {:induction false} CoreReadLoop(s: State, away: set<Handle>)
    requires CoreOk(s, away)
    requires s.link.pingTxn.Some? && s.link.pingTxn.value in s.pool.txns ==> s.pool.txns[s.link.pingTxn.value].ping
    ensures CoreOk(ReadLoop(s).0, away)
    decreases |s.link.inbuf|
  {
    hide Framing.NextFrame, CoreOk, BuildResponse, Report, Answer, ReadLoop;
    ReadLoopFlat(s);
    var n := Framing.NextFrame(s.link.inbuf);
    if n.Got? {
      CoreConsume(s, away);
      var s1 := Consume(s, n.msg, n.rest);
      match PendingHolder(s.pool, n.msg.id)
      case None => CoreReadLoop(s1, away);
      case Some(h) =>
        HolderId(s, n.msg.id, away);
        if s.link.pingTxn == Some(h) {
          CoreAnswerPing(s1, h, n.msg, away);
        } else {
          CoreAnswerReport(s1, h, n.msg, away);
          AnswerReportFrame(s1, h, n.msg);
          CoreReadLoop(Report(Answer(s1, h, n.msg), h), away);
        }
    }
  }

  lemma HolderId(s: State, id: nat, away: set<Handle>)
    requires CoreOk(s, away) && PendingHolder(s.pool, id).Some?
    ensures s.pool.txns[PendingHolder(s.pool, id).value].id == id
  {
    hide QueuesOk, Accounted, DeferredOk, TxnsOk, PrintsOk, InSendOrder, WireOk, PastOk, InputOk, TraceOk, BatchOk,
         RepliesOk;
  }

  lemma AnswerReportFrame(s: State, h: Handle, m: Framing.Message)
    requires h in s.pool.txns
    ensures var r := Report(Answer(s, h, m), h);
            && r.link == s.link
            && r.pool.txns.Keys == s.pool.txns.Keys
            && (forall g :: g in s.pool.txns ==> r.pool.txns[g].ping == s.pool.txns[g].ping)
  {
    hide BuildResponse, Without;
  }

  /** While the ping is the only pending transaction, reading takes frames off
      and drops them until the ping's reply, if that arrives. */
  lemma {:induction false} ReadForPing(s: State, h: Handle) returns (ms: seq<Framing.Message>)
    requires s.link.pingTxn == Some(h) && h in s.pool.txns
    requires forall id :: PendingHolder(s.pool, id).Some? ==> PendingHolder(s.pool, id).value == h
    ensures var (r, end) := ReadLoop(s);
            if end == PingAnswered then
              && ms != [] && PendingHolder(s.pool, ms[|ms| - 1].id) == Some(h)
              && r == Answer(Took(s, ms, r.link.inbuf), h, ms[|ms| - 1])
            else r == Took(s, ms, r.link.inbuf)
    decreases |s.link.inbuf|
  {
    hide Framing.NextFrame, BuildResponse, Report, Answer, ReadLoop;
    ReadLoopFlat(s);
    ms := [];
    match Framing.NextFrame(s.link.inbuf)
    case NeedMore => TookNothing(s);
    case Malformed => TookNothing(s);
    case Got(m, rest) =>
      var s1 := Consume(s, m, rest);
      match PendingHolder(s.pool, m.id)
      case None =>
        var more := ReadForPing(s1, h);
        ms := [m] + more;
        var r := ReadLoop(s1).0;
        assert s.hist.frames + [m] + more == s.hist.frames + ms;
        assert Took(s1, more, r.link.inbuf) == Took(s, ms, r.link.inbuf);
      case Some(g) =>
        ms := [m];
        AnswerKeepsLink(s1, h, m);
        assert Took(s, ms, rest) == s1;
  }

  lemma AnswerKeepsLink(s: State, h: Handle, m: Framing.Message)
    requires h in s.pool.txns
    ensures Answer(s, h, m).link == s.link && Answer(s, h, m).ctl == s.ctl
  {
    hide BuildResponse, Move;
  }
}
