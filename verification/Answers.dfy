/** Replies never cross from one connection to another: a transaction is answered only
    by a frame read on the connection on which it was sent. */
module Answers {
  import opened Bytes
  import opened Pool
  import opened Engine
  import opened Core
  import opened CoreMoves
  import opened Effects
  import opened Invariant
  import opened Steps
  import opened HandlerSteps
  import opened PingSteps
  import opened Progress
  import opened Runs
  import opened Shutdown
  import opened PingWindow
  import opened Losses
  import opened OnTheWire
  import KeyValue
  import Framing

  // ----- what is claimed of the history -----

  predicate PrintedIn(printed: seq<Print>, lo: nat, hi: nat, h: Handle) {
    exists p :: lo <= p < hi && p < |printed| && printed[p].trans == h
  }

  /** Reply number `i` was a frame of its connection, to a transaction printed there. */
  predicate AtHome(hist: History, i: nat) {
    && i < |hist.homes| && i < |hist.replies| && hist.homes[i] <= |hist.past|
    && var c := hist.homes[i];
       if c < |hist.past| then
         hist.replies[i].msg in hist.past[c].frames && PrintedIn(hist.printed, hist.past[c].lo, hist.past[c].hi, hist.replies[i].trans)
       else
         hist.replies[i].msg in hist.frames && PrintedIn(hist.printed, hist.mark, |hist.printed|, hist.replies[i].trans)
  }

  predicate AllAtHome(hist: History) {
    && |hist.homes| == |hist.replies| && hist.mark <= |hist.printed|
    && (forall i :: 0 <= i < |hist.past| ==> hist.past[i].hi <= |hist.printed|)
    && forall i :: 0 <= i < |hist.replies| ==> AtHome(hist, i)
  }

  /** Who waits for a reply was printed on this connection. */
  predicate SentHere(txns: map<Handle, Txn>, printed: seq<Print>, mark: nat) {
    forall h :: h in txns && txns[h].status == Status.Pending ==> PrintedIn(printed, mark, |printed|, h)
  }

  predicate Own(s: State) {
    AllAtHome(s.hist) && (s.link.io == Up ==> SentHere(s.pool.txns, s.hist.printed, s.hist.mark))
  }

  // ----- the moves of the history -----

  lemma PrintedMore(a: seq<Print>, b: seq<Print>, lo: nat, hi: nat, hi2: nat, h: Handle)
    requires a <= b && hi <= hi2 && PrintedIn(a, lo, hi, h)
    ensures PrintedIn(b, lo, hi2, h)
  {
    var p :| lo <= p < hi && p < |a| && a[p].trans == h;
    assert b[p] == a[p];
  }

  /** More may be printed, the rest stays. */
  predicate HistKeeps(a: History, b: History) {
    && b.past == a.past && b.mark == a.mark && b.replies == a.replies && b.homes == a.homes && b.frames == a.frames
    && a.printed <= b.printed
  }

  lemma KeepsHome(a: History, b: History)
    requires AllAtHome(a) && HistKeeps(a, b)
    ensures AllAtHome(b)
  {
    hide PrintedIn;
    forall i | 0 <= i < |b.replies| ensures AtHome(b, i) {
      assert AtHome(a, i);
      var c, h := a.homes[i], a.replies[i].trans;
      if c < |a.past| {
        PrintedMore(a.printed, b.printed, a.past[c].lo, a.past[c].hi, a.past[c].hi, h);
      } else {
        PrintedMore(a.printed, b.printed, a.mark, |a.printed|, |b.printed|, h);
      }
    }
  }

  lemma ConsumeHome(s: State, m: Framing.Message, rest: seq<byte>)
    requires Own(s)
    ensures Own(Consume(s, m, rest)) && m in Consume(s, m, rest).hist.frames
  {
    hide PrintedIn, SentHere;
    var r := Consume(s, m, rest);
    forall i | 0 <= i < |r.hist.replies| ensures AtHome(r.hist, i) {
      assert AtHome(s.hist, i);
    }
  }

  lemma AnswerHome(s: State, h: Handle, m: Framing.Message)
    requires Own(s) && s.link.io == Up && m in s.hist.frames
    requires h in s.pool.txns && s.pool.txns[h].status == Status.Pending
    ensures Own(Answer(s, h, m)) && Own(Report(Answer(s, h, m), h))
  {
    AnswerHist(s, h, m);
    hide PrintedIn, Answer, Report;
    var r := Answer(s, h, m);
    assert PrintedIn(s.hist.printed, s.hist.mark, |s.hist.printed|, h);
    forall i | 0 <= i < |r.hist.replies| ensures AtHome(r.hist, i) {
      if i < |s.hist.replies| { assert AtHome(s.hist, i); }
    }
    KeepsHome(r.hist, Report(r, h).hist);
  }

  lemma AnswerHist(s: State, h: Handle, m: Framing.Message)
    requires h in s.pool.txns
    ensures var r := Answer(s, h, m);
            && r.hist == s.hist.(replies := s.hist.replies + [Reply(h, m)], homes := s.hist.homes + [|s.hist.past|])
            && r.link == s.link && HistKeeps(r.hist, Report(r, h).hist) && Report(r, h).link == s.link
            && Report(r, h).hist.printed == s.hist.printed
            && (forall g :: g in r.pool.txns ==> g in s.pool.txns && (r.pool.txns[g].status == Status.Pending ==> s.pool.txns[g].status == Status.Pending))
            && (forall g :: g in Report(r, h).pool.txns ==> g in r.pool.txns && Report(r, h).pool.txns[g].status == r.pool.txns[g].status)
  {
    hide BuildResponse, Without;
  }

  lemma {:induction false} LoopHome(s: State)
    requires Own(s) && s.link.io == Up
    ensures Own(ReadLoop(s).0) && ReadLoop(s).0.link.io == Up
    decreases |s.link.inbuf|
  {
    hide Framing.NextFrame, BuildResponse, Report, Answer, ReadLoop, Own;
    ReadLoopFlat(s);
    var n := Framing.NextFrame(s.link.inbuf);
    if n.Got? {
      var s1 := Consume(s, n.msg, n.rest);
      ConsumeHome(s, n.msg, n.rest);
      match PendingHolder(s.pool, n.msg.id)
      case None => LoopHome(s1);
      case Some(h) =>
        AnswerHome(s1, h, n.msg);
        AnswerHist(s1, h, n.msg);
        if s.link.pingTxn != Some(h) {
          LoopHome(Report(Answer(s1, h, n.msg), h));
        }
    }
  }

  /** Closing a connection files its prints and frames away. */
  lemma TearDownHome(s: State)
    requires AllAtHome(s.hist)
    ensures AllAtHome(TearDown(s).hist)
  {
    hide PrintedIn;
    var r := TearDown(s);
    forall i | 0 <= i < |r.hist.replies| ensures AtHome(r.hist, i) {
      assert AtHome(s.hist, i);
    }
  }

  lemma FailHome(s: State, isError: bool, away: set<Handle>)
    requires CoreOk(s, away) && AllAtHome(s.hist)
    ensures Own(ConnFail(s, isError))
  {
    hide CoreOk, ConnFail, LossReport, Marks, Forsaken, AllAtHome, SentHere;
    TearDownHome(s);
    ConnFailIs(s, isError, away);
    KeepsHome(TearDown(s).hist, ConnFail(s, isError).hist);
  }

  lemma ReadOnHome(s: State, away: set<Handle>)
    requires CoreOk(s, away) && Own(s) && s.link.io == Up
    requires s.link.pingTxn.Some? && s.link.pingTxn.value in s.pool.txns ==> s.pool.txns[s.link.pingTxn.value].ping
    ensures Own(ReadOn(s))
  {
    hide CoreOk, ReadLoop, ConnFail, Without, AllAtHome, SentHere;
    LoopHome(s);
    CoreReadLoop(s, away);
    var (r, end) := ReadLoop(s);
    var u := if r.pool.pending == [] then ResetTimer(r) else r;
    CoreTimer(r, u, away);
    if end == Failed {
      FailHome(u, true, away);
    }
  }

  lemma OnReadHome(s: State, b: seq<byte>)
    requires Inv(s) && s.ctl.pc == Quiet && s.link.io == Up && Own(s)
    ensures Own(ReadOn(Append(Enter(s), b)))
  {
    hide CoreOk, ReadOn, Append, Alive, DeliveredOk, Exact, AllAtHome, SentHere;
    AppendInv(s, b);
    AppendKeeps(s, b);
    var t := Append(Enter(s), b);
    PingPointer(t);
    KeepsHome(s.hist, t.hist);
    ReadOnHome(t, {});
  }

  /** Sending what is ready prints it here. */
  lemma PromotedHome(s: State, away: set<Handle>)
    requires CoreOk(s, away) && Own(s) && s.link.io == Up
    ensures Own(PromoteAll(s)) && PromoteAll(s).link.io == Up
  {
    hide CoreOk, PrintsOf, Stream, WasPrinted, PrintedIn, AtHome;
    PromoteAllIs(s, away);
    QueueFacts(s, away);
    var r := PromoteAll(s);
    KeepsHome(s.hist, r.hist);
    forall h | h in r.pool.txns && r.pool.txns[h].status == Status.Pending
      ensures PrintedIn(r.hist.printed, r.hist.mark, |r.hist.printed|, h)
    {
      if h in s.pool.ready {
        PrintsOfHas(s, s.pool.ready, h);
        NewlyPrinted(s.hist.printed, PrintsOf(s, s.pool.ready), s.hist.mark, h);
      } else {
        PrintedMore(s.hist.printed, r.hist.printed, s.hist.mark, |s.hist.printed|, |r.hist.printed|, h);
      }
    }
  }

  lemma NewlyPrinted(a: seq<Print>, b: seq<Print>, mark: nat, h: Handle)
    requires mark <= |a| && WasPrinted(b, h)
    ensures PrintedIn(a + b, mark, |a + b|, h)
  {
    var i :| 0 <= i < |b| && b[i].trans == h;
    assert (a + b)[|a| + i] == b[i];
  }

  // ----- the steps -----

  lemma SendHome(s: State, h: Handle)
    requires Inv(s) && Enabled(s, Step.Send(h)) && Own(s)
    ensures Own(Do(s, Step.Send(h)))
  {
    hide Inv, CoreOk, PromoteAll, AllAtHome, Without;
    InvCore(s);
    if Sendable(s.pool.txns[h]) {
      CoreMovesReady(s, h);
      var m := MakeReady(s, h);
      KeepsHome(s.hist, m.hist);
      if s.link.status == Connected {
        ConnectedIsUp(s);
        hide Own;
        PromotedHome(m, Away(s)) by { OwnReady(s, h); }
        TimerHome(PromoteAll(m), Stopped);
      }
    }
  }

  lemma OwnReady(s: State, h: Handle)
    requires h in s.pool.txns && Own(s)
    ensures Own(MakeReady(s, h))
  {
    hide AllAtHome, Without, PrintedIn;
    KeepsHome(s.hist, MakeReady(s, h).hist);
  }

  lemma TimerHome(s: State, t: Timer)
    requires Own(s)
    ensures Own(SetTimer(s, t))
  {
    hide AllAtHome, SentHere;
  }

  lemma ConnectedIsUp(s: State)
    requires Inv(s) && s.ctl.pc != Gone && s.link.status == Connected
    ensures s.link.io == Up
  {
    hide CoreOk, DeliveredOk, PingOk, FirstOk, LogMatches, CtlOk;
  }

  lemma CleaningIsUp(s: State)
    requires Inv(s) && Cleaning(s.ctl.pc)
    ensures s.link.io == Up
  {
    hide CoreOk, DeliveredOk, PingOk, FirstOk, LogMatches, CtlOk;
  }

  lemma OpenUpHome(s: State, away: set<Handle>)
    requires CoreOk(s, away) && Own(s) && s.link.io == Up
    ensures Own(OpenUp(s)) && OpenUp(s).link.io == Up
  {
    hide CoreOk, PromoteAll, AllAtHome, SentHere;
    var c := s.(link := s.link.(pingTxn := None, status := Connected));
    CoreTimer(s, c, away);
    CoreEmit(c, ConnConnected, away);
    KeepsHome(s.hist, Emit(c, ConnConnected).hist);
    PromotedHome(Emit(c, ConnConnected), away);
  }

  lemma ResumeHome(s: State)
    requires Inv(s) && s.ctl.pc.Cleaned? && Own(s)
    ensures Own(DoResume(s))
  {
    hide Inv, CoreOk, OpenUp, ReadOn, ConnFail, AllAtHome, SentHere;
    InvCore(s);
    CleaningIsUp(s);
    match s.ctl.pc.k
    case FromConnected => OpenUpHome(s, Away(s));
    case FromRead =>
      OpenUpHome(s, Away(s));
      OpenUpInv(s) by { hide Exact; }
      var t := Goto(OpenUp(s), Deliver);
      InvCore(t);
      CoreTimer(t, OpenUp(s), Away(t));
      ReadOnHome(OpenUp(s), Away(t));
    case FromTimeout =>
      var t := s.(link := s.link.(pingTxn := None));
      CoreTimer(s, t, Away(s));
      FailHome(t, true, Away(s));
  }

  /** When the I/O object connects, nobody waits for a reply. */
  lemma NobodyWaits(s: State)
    requires Inv(s) && s.ctl.pc == Quiet && s.link.io == Opening
    ensures forall h :: h in s.pool.txns ==> s.pool.txns[h].status != Status.Pending
  {
    OpeningFacts(s);
    Entered(s) by { hide Exact; }
    hide Inv;
    PoolPart(s, {});
    hide CoreOk, NoDup, Ledger;
  }

  lemma OpeningFacts(s: State)
    requires Inv(s) && s.ctl.pc == Quiet && s.link.io == Opening
    ensures s.pool.pending == []
  {
    hide CoreOk, DeliveredOk, PingOk, FirstOk, LogMatches, CtlOk;
  }

  lemma ConnectedHome(s: State, id: nat, n: nat)
    requires Inv(s) && Enabled(s, OnConnected(id, n)) && Own(s)
    ensures Own(Do(s, OnConnected(id, n)))
  {
    hide Inv, AllAtHome, PingPrinted, FreeId, Without, PrintOf, PingPrint;
    NobodyWaits(s);
    var r := Do(s, OnConnected(id, n));
    if s.link.disablePing {
      KeepsHome(s.hist, r.hist);
    } else {
      PingParts(s, id);
      KeepsHome(s.hist, r.hist);
      PingIsHere(s, id);
    }
  }

  lemma PingIsHere(s: State, id: nat)
    requires AllAtHome(s.hist)
    ensures var p := s.hist.printed + [PingPrint(s, id)]; PrintedIn(p, s.hist.mark, |p|, s.pool.next)
  {
    assert (s.hist.printed + [PingPrint(s, id)])[|s.hist.printed|].trans == s.pool.next;
  }

  /** Nothing is sent or answered, and the connection does not come up. */
  predicate Idle(s: State, r: State) {
    && HistKeeps(s.hist, r.hist) && r.hist.printed == s.hist.printed
    && (r.link.io == Up ==> s.link.io == Up)
    && (forall h :: h in r.pool.txns && r.pool.txns[h].status == Status.Pending ==>
          h in s.pool.txns && s.pool.txns[h].status == Status.Pending)
  }

  lemma IdleHome(s: State, r: State)
    requires Own(s) && Idle(s, r)
    ensures Own(r)
  {
    hide AllAtHome, PrintedIn;
    KeepsHome(s.hist, r.hist);
  }

  lemma {:induction false} DrainIdle(s: State)
    ensures Idle(s, DrainAll(s))
    decreases |s.pool.delayRm|
  {
    if s.pool.delayRm != [] && s.pool.delayRm[0] in s.pool.txns {
      var r := DeleteNow(s, DrainHead(s.pool));
      DrainHeadShorter(s.pool);
      assert Idle(s, r) by { hide Without; }
      hide DrainHead;
      DrainIdle(r);
    }
  }

  lemma CallIdle(s: State, a: Step)
    requires Inv(s) && Enabled(s, a) && IsCall(a) && !a.Send?
    ensures Idle(s, Do(s, a))
  {
    hide Inv, FreeId, DoDelete, FreeAll, KeyValue.SetPair;
    match a
    case Delete(h) => DeleteIdle(s, h);
    case Destroy => DemolishIdle(s);
    case _ =>
  }

  lemma OthersIdle(s: State, a: Step)
    requires Inv(s) && Enabled(s, a) && !CanLose(a) && !a.Send? && !a.OnConnected?
    ensures Idle(s, Do(s, a))
  {
    hide Inv, DrainAll, Without, DoDeletePing, FreeAll, PingPrinted, FreeId;
    if IsCall(a) {
      CallIdle(s, a);
    } else {
      match a
      case DeletePing => PingIdle(s);
      case Finish => DemolishIdle(s);
      case DrainDeferred => DrainIdle(s);
      case _ =>
    }
  }

  lemma DeleteIdle(s: State, h: Handle)
    requires h in s.pool.txns
    ensures Idle(s, DoDelete(s, h))
  {
    hide Without;
  }

  lemma PingIdle(s: State)
    requires s.ctl.pc.Cleanup?
    ensures Idle(s, DoDeletePing(s))
  {
  }

  lemma DemolishIdle(s: State)
    ensures Idle(s, Demolish(s))
  {
  }

  lemma OwnStep(s: State, a: Step)
    requires Inv(s) && Enabled(s, a) && Own(s)
    ensures Own(Do(s, a))
  {
    hide Inv, ReadOn, Append, ConnFail, DoResume, AllAtHome, SentHere, Idle, DoSend, DoOnConnected, DoOnRead;
    if a.Send? {
      SendHome(s, a.h);
    } else if a.OnConnected? {
      ConnectedHome(s, a.id, a.n);
    } else if a == ResumeHandler {
      ResumeHome(s);
    } else if a.OnLinkLost? {
      LostHome(s, a.isError);
    } else if CanLose(a) {
      OnReadHome(s, a.input.value);
      ReadIs(s, a.input.value);
    } else {
      OthersIdle(s, a);
      IdleHome(s, Do(s, a));
    }
  }

  lemma ReadIs(s: State, b: seq<byte>)
    ensures DoOnRead(s, Some(b)) == ReadOn(Append(Enter(s), b))
  {
    hide ReadOn;
  }

  lemma LostHome(s: State, isError: bool)
    requires Inv(s) && s.ctl.pc == Quiet && Own(s)
    ensures Own(ConnFail(Enter(s), isError))
  {
    hide Inv, CoreOk, ConnFail, AllAtHome, SentHere, Exact;
    Entered(s);
    FailHome(Enter(s), isError, {});
  }

  lemma {:induction false} OwnAlways(disablePing: bool, states: seq<State>, steps: seq<Step>, i: nat)
    requires Execution(disablePing, states, steps) && i < |states|
    ensures Own(states[i])
  {
    hide Inv, Do, Enabled;
    if i > 0 {
      hide Own;
      OwnAlways(disablePing, states, steps, i - 1);
      InvAlways(disablePing, states, steps, i - 1);
      assert Enabled(states[i - 1], steps[i - 1]);
      OwnStep(states[i - 1], steps[i - 1]);
    }
  }

  /** The frames taken off the input of connection number `c`. */
  function FramesOf(s: State, c: nat): seq<Framing.Message>
    requires c <= |s.hist.past|
  {
    if c < |s.hist.past| then s.hist.past[c].frames else s.hist.frames
  }

  /** Over a whole run, reply number `n` was a frame read on one connection, and the
      transaction it answered had been put on the wire of that very connection: a late
      reply never crosses a reconnect. */
  lemma AnsweredWhereSent(disablePing: bool, states: seq<State>, steps: seq<Step>, i: nat, n: nat)
    requires Execution(disablePing, states, steps) && i < |states| && n < |states[i].hist.replies|
    ensures var s := states[i];
            && n < |s.hist.homes| && s.hist.homes[n] <= |s.hist.past|
            && var c := s.hist.homes[n];
               && s.hist.replies[n].msg in FramesOf(s, c)
               && PrintedIn(s.hist.printed, SliceOf(s, c).0, SliceOf(s, c).1, s.hist.replies[n].trans)
  {
    hide Execution, PrintedIn;
    OwnAlways(disablePing, states, steps, i);
    assert AtHome(states[i].hist, n);
  }
}
