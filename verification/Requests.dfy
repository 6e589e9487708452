/** Which bytes can be in a request: what the callers put there, and nothing else. */
module Requests {
  import opened Bytes
  import opened Pool
  import opened Engine
  import opened Core
  import opened CoreMoves
  import opened Effects
  import opened Invariant
  import opened Steps
  import opened HandlerSteps
  import opened PingSteps
  import opened Progress
  import opened Runs
  import opened Shutdown
  import KeyValue
  import Framing
  import Decimal

  // ----- one request -----

  /** The frame of a request reads back at the peer exactly when no parameter of the
      request has an ETX in its name or its value. */
  lemma RequestReadsBack(id: nat, ps: seq<KeyValue.Pair>, tail: seq<byte>)
    requires id <= Decimal.MAX_UINT64 && ps != []
    ensures var data := KeyValue.Payload(ps);
            Framing.NextFrame(Framing.Frame(id, data) + tail) == Framing.Got(Framing.Message(id, data), tail)
            <==> KeyValue.NoEtx(ps)
  {
    hide KeyValue.Payload, Framing.NextFrame, Framing.Frame;
    KeyValue.PayloadNotEmpty(ps);
    KeyValue.PayloadNoEtx(ps);
    Framing.FrameReadsBack(id, KeyValue.Payload(ps), tail);
  }

  /** A request that the peer misreads: of the parameter `a` it gets an open quote for
      a value, and the rest of the frame is left in its buffer. */
  lemma EtxIsMisread()
    ensures var ps := [KeyValue.Pair([0x61], [ETX])];
            Framing.NextFrame(Framing.Frame(1, KeyValue.Payload(ps)))
            == Framing.Got(Framing.Message(1, [0x61, EQUALS, QUOTE]), [QUOTE, ETX])
  {
    var ps := [KeyValue.Pair([0x61], [ETX])];
    var data: seq<byte> := [0x61, EQUALS, QUOTE, ETX, QUOTE];
    assert KeyValue.Double([ETX]) == [ETX];
    assert KeyValue.Payload(ps) == data;
    assert Decimal.Print(1) == [0x31];
    var buf := Framing.Frame(1, data);
    assert buf == [STX, 0x31, FS, 0x61, EQUALS, QUOTE, ETX, QUOTE, ETX];
    hide Framing.Frame, KeyValue.Payload, KeyValue.Double;
    assert buf[6] == ETX && forall j :: 0 <= j < 6 ==> buf[j] != ETX;
    assert FirstIndex(buf, ETX) == 6 by {
      var e := FirstIndex(buf, ETX);
      assert e < |buf| ==> buf[e] == ETX;
    }
    Framing.ParsePrintedBody(1, [0x61, EQUALS, QUOTE]);
    assert buf[1..6] == Decimal.Print(1) + [FS] + [0x61, EQUALS, QUOTE];
    assert buf[7..] == [QUOTE, ETX];
  }

  // ----- every request of a run -----

  predicate PlainTxns(txns: map<Handle, Txn>) {
    forall h :: h in txns ==> KeyValue.NoEtx(txns[h].request)
  }

  /** No ETX in any message printed so far. */
  predicate NoEtxPrinted(printed: seq<Print>) {
    forall i :: 0 <= i < |printed| ==> ETX !in printed[i].msg.data
  }

  /** No ETX in any request kept or sent. */
  predicate Plain(s: State) {
    PlainTxns(s.pool.txns) && NoEtxPrinted(s.hist.printed)
  }

  /** Nothing was printed, and no request got anything new. */
  predicate NoNews(s: State, r: State) {
    && r.hist.printed == s.hist.printed
    && forall h :: h in r.pool.txns ==>
         h in s.pool.txns && (r.pool.txns[h].request == s.pool.txns[h].request || r.pool.txns[h].request == [])
  }

  lemma NoNewsPlain(s: State, r: State)
    requires Plain(s) && NoNews(s, r)
    ensures Plain(r)
  {
  }

  lemma NoNewsTrans(s: State, m: State, r: State)
    requires NoNews(s, m) && NoNews(m, r)
    ensures NoNews(s, r)
  {
  }

  lemma AnswerNoNews(s: State, h: Handle, m: Framing.Message)
    requires h in s.pool.txns
    ensures NoNews(s, Answer(s, h, m)) && NoNews(s, Report(Answer(s, h, m), h))
  {
    hide BuildResponse, Without;
  }

  lemma {:induction false} LoopNoNews(s: State)
    ensures NoNews(s, ReadLoop(s).0)
    decreases |s.link.inbuf|
  {
    hide Framing.NextFrame, BuildResponse, Report, Answer, ReadLoop;
    ReadLoopFlat(s);
    var n := Framing.NextFrame(s.link.inbuf);
    if n.Got? {
      var s1 := Consume(s, n.msg, n.rest);
      match PendingHolder(s.pool, n.msg.id)
      case None => LoopNoNews(s1);
      case Some(h) =>
        AnswerNoNews(s1, h, n.msg);
        if s.link.pingTxn != Some(h) {
          var r := Report(Answer(s1, h, n.msg), h);
          AnswerReportFrame(s1, h, n.msg);
          LoopNoNews(r);
          NoNewsTrans(s1, r, ReadLoop(r).0);
        }
    }
  }

  lemma FailNoNews(s: State, isError: bool, away: set<Handle>)
    requires CoreOk(s, away)
    ensures NoNews(s, ConnFail(s, isError))
  {
    hide CoreOk, ConnFail, LossReport, Marks, REFUSAL;
    ConnFailIs(s, isError, away);
  }

  lemma ReadOnNoNews(s: State, away: set<Handle>)
    requires CoreOk(s, away)
    requires s.link.pingTxn.Some? && s.link.pingTxn.value in s.pool.txns ==> s.pool.txns[s.link.pingTxn.value].ping
    ensures NoNews(s, ReadOn(s))
  {
    hide CoreOk, ReadLoop, ConnFail, Without;
    LoopNoNews(s);
    CoreReadLoop(s, away);
    var (r, end) := ReadLoop(s);
    var u := if r.pool.pending == [] then ResetTimer(r) else r;
    CoreTimer(r, u, away);
    if end == Failed {
      FailNoNews(u, true, away);
    }
  }

  lemma OnReadNoNews(s: State, b: seq<byte>)
    requires Inv(s) && s.ctl.pc == Quiet && s.link.io == Up
    ensures NoNews(s, ReadOn(Append(Enter(s), b)))
  {
    hide CoreOk, ReadOn, Append, Alive, DeliveredOk, Exact;
    AppendInv(s, b);
    AppendKeeps(s, b);
    var t := Append(Enter(s), b);
    PingPointer(t);
    ReadOnNoNews(t, {});
  }

  lemma {:induction false} DrainNoNews(s: State)
    ensures NoNews(s, DrainAll(s))
    decreases |s.pool.delayRm|
  {
    if s.pool.delayRm != [] && s.pool.delayRm[0] in s.pool.txns {
      var r := DeleteNow(s, DrainHead(s.pool));
      DrainHeadShorter(s.pool);
      assert NoNews(s, r) by { hide Without; }
      hide DrainHead, NoNews;
      DrainNoNews(r);
      NoNewsTrans(s, r, DrainAll(r));
    }
  }

  /** What is printed is what the requests hold. */
  lemma {:induction false} PrintsOfPlain(s: State, q: seq<Handle>)
    requires PlainTxns(s.pool.txns)
    ensures NoEtxPrinted(PrintsOf(s, q))
  {
    hide KeyValue.Payload;
    if q != [] {
      PrintsOfPlain(s, q[1..]);
      if q[0] in s.pool.txns {
        KeyValue.PayloadNoEtx(s.pool.txns[q[0]].request);
      }
    }
  }

  lemma PromotedPlain(s: State, away: set<Handle>)
    requires CoreOk(s, away) && Plain(s)
    ensures Plain(PromoteAll(s))
  {
    hide CoreOk, PrintsOf, Stream;
    PromoteAllIs(s, away);
    PrintsOfPlain(s, s.pool.ready);
  }

  lemma SendPlain(s: State, h: Handle)
    requires Inv(s) && Enabled(s, Step.Send(h)) && Plain(s)
    ensures Plain(Do(s, Step.Send(h)))
  {
    hide Inv, CoreOk, PromoteAll, Without;
    InvCore(s);
    if Sendable(s.pool.txns[h]) {
      CoreMovesReady(s, h);
      PromotedPlain(MakeReady(s, h), Away(s));
    }
  }

  lemma ResumePlain(s: State)
    requires Inv(s) && s.ctl.pc.Cleaned? && Plain(s)
    ensures Plain(DoResume(s))
  {
    hide Inv, CoreOk, PromoteAll, ReadOn, ConnFail, PlainTxns, NoEtxPrinted;
    InvCore(s);
    if s.ctl.pc.k == FromTimeout {
      var t := s.(link := s.link.(pingTxn := None));
      CoreTimer(s, t, Away(s));
      FailNoNews(t, true, Away(s));
      NoNewsPlain(t, ConnFail(t, true));
    } else {
      var c := s.(link := s.link.(pingTxn := None, status := Connected));
      CoreTimer(s, c, Away(s));
      CoreEmit(c, ConnConnected, Away(s));
      PromotedPlain(Emit(c, ConnConnected), Away(s));
      if s.ctl.pc.k == FromRead {
        OpenUpInv(s) by { hide Exact; }
        var t := Goto(OpenUp(s), Deliver);
        InvCore(t);
        CoreTimer(t, OpenUp(s), Away(t));
        hide OpenUp;
        ReadOnNoNews(OpenUp(s), Away(t));
        NoNewsPlain(OpenUp(s), ReadOn(OpenUp(s)));
      }
    }
  }

  lemma ConnectedPlainly(s: State, id: nat, n: nat)
    requires Enabled(s, OnConnected(id, n)) && Plain(s)
    ensures Plain(Do(s, OnConnected(id, n)))
  {
    hide FreeId, PingPrinted, Without, KeyValue.Payload;
    if !s.link.disablePing {
      PingParts(s, id);
      PingIsPlain();
      KeyValue.PayloadNoEtx(KeyValue.PING_REQUEST);
    }
  }

  lemma PingIsPlain()
    ensures KeyValue.NoEtx(KeyValue.PING_REQUEST)
  {
  }

  lemma SetPlain(s: State, h: Handle, key: seq<byte>, value: seq<byte>)
    requires h in s.pool.txns && Plain(s) && ETX !in key && ETX !in value
    ensures Plain(DoSetParam(s, h, key, value))
  {
    hide KeyValue.SetPair, KeyValue.NoEtx;
    KeyValue.SetPairNoEtx(s.pool.txns[h].request, key, value);
  }

  lemma DeletePlain(s: State, h: Handle)
    requires h in s.pool.txns && Plain(s)
    ensures Plain(DoDelete(s, h))
  {
    hide KeyValue.NoEtx, Without;
  }

  /** The call sets a parameter with an ETX in it. */
  predicate SetsEtx(a: Step) {
    a.SetParam? && (ETX in a.key || ETX in a.value)
  }

  lemma PlainStep(s: State, a: Step)
    requires Inv(s) && Enabled(s, a) && Plain(s) && !SetsEtx(a)
    ensures Plain(Do(s, a))
  {
    hide Inv, CoreOk, ReadOn, Append, ConnFail, DrainAll, FreeId, PingPrinted, DoSend, DoResume, DoOnConnected,
         DoSetParam, DoDelete, KeyValue.NoEtx, Without;
    match a
    case New(id) => NewPlain();
    case SetParam(h, key, value) => SetPlain(s, h, key, value);
    case Send(h) => SendPlain(s, h);
    case Delete(h) => DeletePlain(s, h);
    case OnConnected(id, n) => ConnectedPlainly(s, id, n);
    case ResumeHandler => ResumePlain(s);
    case OnRead(input) =>
      if input.Some? {
        OnReadNoNews(s, input.value);
        NoNewsPlain(s, ReadOn(Append(Enter(s), input.value)));
      }
    case OnLinkLost(isError) =>
      Entered(s) by { hide Exact; }
      FailNoNews(Enter(s), isError, {});
      NoNewsPlain(Enter(s), ConnFail(Enter(s), isError));
    case DrainDeferred =>
      DrainNoNews(s);
      NoNewsPlain(s, DrainAll(s));
    case _ =>
  }

  lemma NewPlain()
    ensures KeyValue.NoEtx([])
  {
  }

  /** In a run whose callers never put an ETX into a parameter, none is ever printed. */
  lemma {:induction false} PlainAlways(disablePing: bool, states: seq<State>, steps: seq<Step>, i: nat)
    requires Execution(disablePing, states, steps) && i < |states|
    requires forall k :: 0 <= k < i ==> !SetsEtx(steps[k])
    ensures Plain(states[i])
  {
    hide Inv, Do, Enabled, SetsEtx;
    if i > 0 {
      hide Plain;
      PlainAlways(disablePing, states, steps, i - 1);
      InvAlways(disablePing, states, steps, i - 1);
      assert Enabled(states[i - 1], steps[i - 1]);
      PlainStep(states[i - 1], steps[i - 1]);
    }
  }
}
