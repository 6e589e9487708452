/** The part of the engine's invariant that holds after every small move, and the
    proof that every small move keeps it. */
module Core {
  import opened Bytes
  import opened Pool
  import opened Engine
  import opened Traces
  import Framing

  // ----- what has been printed -----

  predicate WasPrinted(printed: seq<Print>, h: Handle) {
    exists i :: 0 <= i < |printed| && printed[i].trans == h
  }

  predicate OnWire(t: Txn) {
    t.status == Status.Pending || t.status == Status.Done
  }

  /** A live transaction has been printed exactly when it is pending or done; no
      transaction is printed twice; a print names the transaction's id. */
  predicate PrintsOk(txns: map<Handle, Txn>, next: Handle, printed: seq<Print>) {
    && (forall i, j :: 0 <= i < j < |printed| ==> printed[i].trans != printed[j].trans)
    && (forall i :: 0 <= i < |printed| ==> printed[i].trans < next && Framed(printed[i].msg))
    && (forall h :: h in txns ==> (OnWire(txns[h]) <==> WasPrinted(printed, h)))
    && (forall i :: 0 <= i < |printed| && printed[i].trans in txns ==> SamePrint(printed[i], txns[printed[i].trans]))
  }

  /** A message the frame format can carry, but for ETX bytes in its data. */
  predicate Framed(m: Framing.Message) {
    1 <= m.id <= MAX_ID && m.data != []
  }

  predicate SamePrint(pr: Print, t: Txn) {
    pr.msg.id == t.id && pr.ping == t.ping && (!pr.ping ==> pr.order == t.order)
  }

  /** Send numbers of the printed payments, in print order. */
  function Paid(printed: seq<Print>): seq<nat> {
    if printed == [] then []
    else
      var before := Paid(printed[..|printed| - 1]);
      if printed[|printed| - 1].ping then before else before + [printed[|printed| - 1].order]
  }

  function OrderIn(txns: map<Handle, Txn>, h: Handle): nat {
    if h in txns then txns[h].order else 0
  }

  function Orders(txns: map<Handle, Txn>, q: seq<Handle>): seq<nat> {
    if q == [] then [] else [OrderIn(txns, q[0])] + Orders(txns, q[1..])
  }

  /** Payments printed, then payments ready: in the order of the `send` calls. */
  predicate InSendOrder(txns: map<Handle, Txn>, ready: seq<Handle>, printed: seq<Print>, sends: nat) {
    var track := Paid(printed) + Orders(txns, ready);
    Sorted(track) && forall i :: 0 <= i < |track| ==> track[i] < sends
  }

  // ----- the bytes -----

  function Stream(ps: seq<Print>): seq<byte> {
    if ps == [] then []
    else Stream(ps[..|ps| - 1]) + Framing.Frame(ps[|ps| - 1].msg.id, ps[|ps| - 1].msg.data)
  }

  /** Bytes written on this connection, then bytes waiting, are the frames printed
      on this connection. */
  predicate WireOk(outbuf: seq<byte>, wire: seq<byte>, printed: seq<Print>, mark: nat) {
    mark <= |printed| && wire + outbuf == Stream(printed[mark..])
  }

  /** Earlier connections have their own prints, one after the other, and what
      left on each is a prefix of its frames. */
  predicate PastOk(past: seq<Past>, printed: seq<Print>, mark: nat) {
    && mark <= |printed|
    && (forall i :: 0 <= i < |past| ==> PastOne(past[i], printed, mark))
    && (forall i :: 0 <= i < |past| ==> Follows(past, i))
    && mark == if past == [] then 0 else past[|past| - 1].hi
  }

  /** A connection's prints start where those of the one before it ended. */
  predicate Follows(past: seq<Past>, i: nat)
    requires i < |past|
  {
    past[i].lo == if i == 0 then 0 else past[i - 1].hi
  }

  predicate PastOne(p: Past, printed: seq<Print>, mark: nat) {
    p.lo <= p.hi <= mark && mark <= |printed| && p.wire <= Stream(printed[p.lo..p.hi])
  }

  /** The frames taken off so far, then those still in the buffer, are the frames
      of everything read on this connection. */
  predicate InputOk(input: seq<byte>, frames: seq<Framing.Message>, inbuf: seq<byte>) {
    Framing.SplitAll(input) == Framing.Prepend(frames, Framing.SplitAll(inbuf))
  }

  // ----- the events -----

  predicate Fits(t: Txn, ph: Phase) {
    && (t.status == Status.New || t.status == Status.Ready ==> ph == Open)
    && (t.status == Status.Pending ==> ph == Open || ph == Warned)
    && (t.timer ==> ph == Open)
    && (t.fate == Lost ==> ph == Ended(false))
    && (t.fate.Answered? && !t.ping ==> ph == Ended(true))
  }

  ghost predicate TraceOk(txns: map<Handle, Txn>, next: Handle, log: seq<Mark>) {
    && (forall h :: h in txns ==> Fits(txns[h], PhaseOf(log, h)))
    && (forall h: Handle :: PhaseOf(log, h) != Bad)
    && (forall h: Handle :: h >= next ==> PhaseOf(log, h) == Open)
  }

  /** Every event waiting for delivery names a transaction that is still live. */
  predicate BatchOk(txns: map<Handle, Txn>, batch: seq<Event>) {
    forall i :: 0 <= i < |batch| ==> var h := About(Queues(batch[i])); h.Some? ==> h.value in txns
  }

  predicate RepliesOk(txns: map<Handle, Txn>, replies: seq<Reply>) {
    forall h :: h in txns && txns[h].fate.Answered? ==>
                  Reply(h, Framing.Message(txns[h].id, txns[h].fate.data)) in replies
  }

  ghost predicate CoreOk(s: State, away: set<Handle>) {
    && PoolOk(s.pool, away)
    && PrintsOk(s.pool.txns, s.pool.next, s.hist.printed)
    && InSendOrder(s.pool.txns, s.pool.ready, s.hist.printed, s.hist.sends)
    && WireOk(s.link.outbuf, s.hist.wire, s.hist.printed, s.hist.mark)
    && PastOk(s.hist.past, s.hist.printed, s.hist.mark)
    && InputOk(s.hist.input, s.hist.frames, s.link.inbuf)
    && TraceOk(s.pool.txns, s.pool.next, s.hist.log)
    && BatchOk(s.pool.txns, s.ctl.batch)
    && RepliesOk(s.pool.txns, s.hist.replies)
  }

  // ----- changes to one transaction -----

  lemma PrintsEdit(txns: map<Handle, Txn>, next: Handle, printed: seq<Print>, h: Handle, t: Txn)
    requires PrintsOk(txns, next, printed)
    requires h in txns && SameTxn(txns[h], t) && OnWire(t) == OnWire(txns[h]) && (OnWire(t) ==> t.order == txns[h].order)
    ensures PrintsOk(txns[h := t], next, printed)
  {
    assert forall i :: 0 <= i < |printed| && printed[i].trans == h ==> WasPrinted(printed, h);
  }

  lemma PrintsAdd(txns: map<Handle, Txn>, next: Handle, printed: seq<Print>, t: Txn)
    requires PrintsOk(txns, next, printed) && !OnWire(t)
    ensures PrintsOk(txns[next := t], next + 1, printed)
  {
  }

  lemma PrintsErase(txns: map<Handle, Txn>, next: Handle, printed: seq<Print>, h: Handle)
    requires PrintsOk(txns, next, printed)
    ensures PrintsOk(txns - {h}, next, printed)
  {
  }

  lemma WasPrintedSnoc(printed: seq<Print>, pr: Print, g: Handle)
    ensures WasPrinted(printed + [pr], g) <==> WasPrinted(printed, g) || pr.trans == g
  {
    var p := printed + [pr];
    if WasPrinted(printed, g) {
      var i :| 0 <= i < |printed| && printed[i].trans == g;
      assert p[i].trans == g;
    }
    if pr.trans == g {
      assert p[|printed|].trans == g;
    }
  }

  /** A transaction not printed before is printed and goes on the wire. */
  lemma PrintsSnoc(txns: map<Handle, Txn>, next: Handle, printed: seq<Print>, t: Txn, pr: Print)
    requires PrintsOk(txns, next, printed)
    requires pr.trans < next && (pr.trans in txns ==> !OnWire(txns[pr.trans])) && !WasPrinted(printed, pr.trans)
    requires OnWire(t) && SamePrint(pr, t) && Framed(pr.msg)
    ensures PrintsOk(txns[pr.trans := t], next, printed + [pr])
  {
    forall g ensures WasPrinted(printed + [pr], g) <==> WasPrinted(printed, g) || pr.trans == g {
      WasPrintedSnoc(printed, pr, g);
    }
    assert forall i :: 0 <= i < |printed| ==> printed[i].trans != pr.trans;
    hide WasPrinted;
  }

  lemma PrintsWiden(txns: map<Handle, Txn>, next: Handle, printed: seq<Print>)
    requires PrintsOk(txns, next, printed)
    ensures PrintsOk(txns, next + 1, printed) && !WasPrinted(printed, next)
  {
  }

  lemma TraceEdit(txns: map<Handle, Txn>, next: Handle, log: seq<Mark>, h: Handle, t: Txn)
    requires TraceOk(txns, next, log) && Fits(t, PhaseOf(log, h))
    ensures TraceOk(txns[h := t], next, log)
  {
  }

  lemma TraceAdd(txns: map<Handle, Txn>, next: Handle, log: seq<Mark>, t: Txn)
    requires TraceOk(txns, next, log) && Fits(t, Open)
    ensures TraceOk(txns[next := t], next + 1, log)
  {
  }

  lemma TraceErase(txns: map<Handle, Txn>, next: Handle, log: seq<Mark>, h: Handle)
    requires TraceOk(txns, next, log)
    ensures TraceOk(txns - {h}, next, log)
  {
  }

  /** Transaction `h` becomes `t` while an event about it is queued. */
  lemma TraceEmit(txns: map<Handle, Txn>, next: Handle, log: seq<Mark>, h: Handle, t: Txn, e: Event)
    requires TraceOk(txns, next, log) && h < next && About(Queues(e)) == Some(h)
    requires NextPhase(PhaseOf(log, h), e) != Bad && Fits(t, NextPhase(PhaseOf(log, h), e))
    ensures TraceOk(txns[h := t], next, log + [Queues(e)])
  {
    forall g ensures PhaseOf(log + [Queues(e)], g) == if g == h then NextPhase(PhaseOf(log, h), e) else PhaseOf(log, g) {
      PhaseSnoc(log, Queues(e), g);
    }
    hide PhaseOf;
  }

  lemma TraceMark(txns: map<Handle, Txn>, next: Handle, log: seq<Mark>, m: Mark)
    requires TraceOk(txns, next, log) && About(m) == None
    ensures TraceOk(txns, next, log + [m])
  {
    forall g ensures PhaseOf(log + [m], g) == PhaseOf(log, g) {
      PhaseSnoc(log, m, g);
    }
    hide PhaseOf;
  }

  lemma BatchSnoc(txns: map<Handle, Txn>, batch: seq<Event>, e: Event)
    requires BatchOk(txns, batch)
    requires var h := About(Queues(e)); h.Some? ==> h.value in txns
    ensures BatchOk(txns, batch + [e])
  {
  }

  lemma BatchGrow(txns: map<Handle, Txn>, more: map<Handle, Txn>, batch: seq<Event>)
    requires BatchOk(txns, batch) && txns.Keys <= more.Keys
    ensures BatchOk(more, batch)
  {
    assert forall h :: h in txns ==> h in txns.Keys;
    assert forall h :: h in more.Keys ==> h in more;
  }

  lemma RepliesEdit(txns: map<Handle, Txn>, replies: seq<Reply>, h: Handle, t: Txn)
    requires RepliesOk(txns, replies)
    requires t.fate.Answered? ==> Reply(h, Framing.Message(t.id, t.fate.data)) in replies
    ensures RepliesOk(txns[h := t], replies)
  {
  }

  lemma RepliesSnoc(txns: map<Handle, Txn>, replies: seq<Reply>, r: Reply)
    requires RepliesOk(txns, replies)
    ensures RepliesOk(txns, replies + [r])
  {
  }

  lemma RepliesKeep(txns: map<Handle, Txn>, replies: seq<Reply>, h: Handle, t: Txn)
    requires RepliesOk(txns, replies) && h in txns && t.id == txns[h].id && t.fate == txns[h].fate
    ensures RepliesOk(txns[h := t], replies)
  {
  }

  lemma RepliesErase(txns: map<Handle, Txn>, replies: seq<Reply>, h: Handle)
    requires RepliesOk(txns, replies)
    ensures RepliesOk(txns - {h}, replies)
  {
  }

  lemma NothingRead()
    ensures InputOk([], [], [])
  {
  }

  // ----- send order -----

  lemma {:induction false} OrdersEdit(txns: map<Handle, Txn>, q: seq<Handle>, h: Handle, t: Txn)
    requires h !in q || (h in txns && t.order == txns[h].order)
    ensures Orders(txns[h := t], q) == Orders(txns, q)
  {
    if q != [] {
      OrdersEdit(txns, q[1..], h, t);
    }
  }

  lemma {:induction false} OrdersSnoc(txns: map<Handle, Txn>, q: seq<Handle>, h: Handle)
    ensures Orders(txns, q + [h]) == Orders(txns, q) + [OrderIn(txns, h)]
  {
    if q == [] {
      assert [h][1..] == [];
      assert q + [h] == [h];
    } else {
      OrdersSnoc(txns, q[1..], h);
      assert (q + [h])[1..] == q[1..] + [h];
    }
  }

  /** Destroying a ready transaction drops one entry from the order list. */
  lemma {:induction false} OrdersWithout(txns: map<Handle, Txn>, q: seq<Handle>, h: Handle) returns (k: nat)
    requires NoDup(q) && h in q
    ensures k < |Orders(txns, q)|
    ensures Orders(txns - {h}, Without(q, h)) == Orders(txns, q)[..k] + Orders(txns, q)[k + 1..]
    decreases |q|
  {
    var t := q[1..];
    assert NoDup(t) && q[0] !in t by {
      assert forall j :: 0 <= j < |t| ==> t[j] == q[j + 1];
    }
    if q[0] == h {
      k := 0;
      OrdersErased(txns, t, h);
    } else {
      var k1 := OrdersWithout(txns, t, h);
      k := k1 + 1;
      assert Without(q, h)[0] == q[0] && Without(q, h)[1..] == Without(t, h);
      assert OrderIn(txns - {h}, q[0]) == OrderIn(txns, q[0]);
    }
  }

  lemma SortedSkip(pre: seq<nat>, o: seq<nat>, k: nat, sends: nat)
    requires k < |o| && Sorted(pre + o) && forall i :: 0 <= i < |pre + o| ==> (pre + o)[i] < sends
    ensures var r := pre + (o[..k] + o[k + 1..]); Sorted(r) && forall i :: 0 <= i < |r| ==> r[i] < sends
  {
    var r := pre + (o[..k] + o[k + 1..]);
    assert forall i :: 0 <= i < |r| ==> r[i] == (pre + o)[if i < |pre| + k then i else i + 1];
  }

  /** A destroyed transaction leaves the others in send order. */
  lemma TrackErase(txns: map<Handle, Txn>, ready: seq<Handle>, printed: seq<Print>, sends: nat, h: Handle)
    requires InSendOrder(txns, ready, printed, sends) && NoDup(ready)
    ensures InSendOrder(txns - {h}, Without(ready, h), printed, sends)
  {
    if h in ready {
      var k := OrdersWithout(txns, ready, h);
      SortedSkip(Paid(printed), Orders(txns, ready), k, sends);
    } else {
      OrdersErased(txns, ready, h);
    }
  }

  lemma {:induction false} OrdersErased(txns: map<Handle, Txn>, q: seq<Handle>, h: Handle)
    requires h !in q
    ensures Orders(txns - {h}, q) == Orders(txns, q)
  {
    if q != [] {
      OrdersErased(txns, q[1..], h);
    }
  }

  lemma PaidSnoc(printed: seq<Print>, pr: Print)
    ensures Paid(printed + [pr]) == if pr.ping then Paid(printed) else Paid(printed) + [pr.order]
  {
    assert (printed + [pr])[..|printed|] == printed;
  }

  /** Printing the first ready transaction does not change the track at all. */
  lemma TrackPromote(txns: map<Handle, Txn>, ready: seq<Handle>, printed: seq<Print>, pr: Print, t: Txn)
    requires ready != [] && NoDup(ready) && ready[0] in txns
    requires !pr.ping && pr.order == txns[ready[0]].order == t.order
    ensures Paid(printed + [pr]) + Orders(txns[ready[0] := t], ready[1..]) == Paid(printed) + Orders(txns, ready)
  {
    PaidSnoc(printed, pr);
    assert ready[0] !in ready[1..] by {
      assert forall j :: 0 <= j < |ready[1..]| ==> ready[1..][j] == ready[j + 1];
    }
    OrdersEdit(txns, ready[1..], ready[0], t);
    assert Paid(printed) + [pr.order] + Orders(txns, ready[1..]) == Paid(printed) + ([pr.order] + Orders(txns, ready[1..]));
  }

  /** An accepted send goes to the end of the track. */
  lemma TrackSend(txns: map<Handle, Txn>, ready: seq<Handle>, printed: seq<Print>, sends: nat, h: Handle, t: Txn)
    requires InSendOrder(txns, ready, printed, sends) && h !in ready && t.order == sends
    ensures InSendOrder(txns[h := t], ready + [h], printed, sends + 1)
  {
    OrdersEdit(txns, ready, h, t);
    OrdersSnoc(txns[h := t], ready, h);
    var track := Paid(printed) + Orders(txns, ready);
    assert Paid(printed) + (Orders(txns, ready) + [sends]) == track + [sends];
    hide Paid;
    hide Orders;
  }

  // ----- bytes -----

  lemma StreamSnoc(ps: seq<Print>, pr: Print)
    ensures Stream(ps + [pr]) == Stream(ps) + Framing.Frame(pr.msg.id, pr.msg.data)
  {
    assert (ps + [pr])[..|ps|] == ps;
    hide Framing.Frame;
  }

  lemma WirePrint(outbuf: seq<byte>, wire: seq<byte>, printed: seq<Print>, mark: nat, pr: Print)
    requires WireOk(outbuf, wire, printed, mark)
    ensures WireOk(outbuf + Framing.Frame(pr.msg.id, pr.msg.data), wire, printed + [pr], mark)
  {
    hide Framing.Frame;
    StreamSnoc(printed[mark..], pr);
    assert (printed + [pr])[mark..] == printed[mark..] + [pr];
    var f := Framing.Frame(pr.msg.id, pr.msg.data);
    assert wire + (outbuf + f) == (wire + outbuf) + f;
    hide Stream;
  }

  lemma WireWrite(outbuf: seq<byte>, wire: seq<byte>, printed: seq<Print>, mark: nat, n: nat)
    requires WireOk(outbuf, wire, printed, mark) && n <= |outbuf|
    ensures WireOk(outbuf[n..], wire + outbuf[..n], printed, mark)
  {
    hide Stream;
    assert outbuf == outbuf[..n] + outbuf[n..];
    assert wire + outbuf[..n] + outbuf[n..] == wire + outbuf;
  }

  lemma PastPrint(past: seq<Past>, printed: seq<Print>, mark: nat, pr: Print)
    requires PastOk(past, printed, mark)
    ensures PastOk(past, printed + [pr], mark)
  {
    forall i | 0 <= i < |past| ensures PastOne(past[i], printed + [pr], mark) {
      assert PastOne(past[i], printed, mark);
      assert (printed + [pr])[past[i].lo..past[i].hi] == printed[past[i].lo..past[i].hi];
    }
    hide Stream;
  }

  /** A torn-down connection joins the earlier ones; its unwritten bytes are gone. */
  lemma PastClose(outbuf: seq<byte>, wire: seq<byte>, past: seq<Past>, printed: seq<Print>, mark: nat, frames: seq<Framing.Message>)
    requires PastOk(past, printed, mark) && WireOk(outbuf, wire, printed, mark)
    ensures PastOk(past + [Past(mark, |printed|, wire, frames)], printed, |printed|)
    ensures WireOk([], [], printed, |printed|)
  {
    hide Stream;
    assert printed[|printed|..] == [];
    assert Stream([]) == [] by { StreamEmpty(); }
    assert printed[mark..|printed|] == printed[mark..];
    var all := past + [Past(mark, |printed|, wire, frames)];
    forall i | 0 <= i < |all| ensures PastOne(all[i], printed, |printed|) {
      if i < |past| {
        assert PastOne(past[i], printed, mark);
      } else {
        assert wire <= wire + outbuf;
      }
    }
    forall i | 0 <= i < |all| ensures Follows(all, i) {
      if i < |past| {
        assert Follows(past, i);
      }
    }
  }

  lemma StreamEmpty()
    ensures Stream([]) == []
  {
  }

  lemma InputAppend(input: seq<byte>, frames: seq<Framing.Message>, inbuf: seq<byte>, b: seq<byte>)
    requires InputOk(input, frames, inbuf)
    ensures InputOk(input + b, frames, inbuf + b)
  {
    hide Framing.SplitAll;
    Framing.SplitConcat(input, b);
    Framing.SplitConcat(inbuf, b);
    var s, t := Framing.SplitAll(input), Framing.SplitAll(inbuf);
    var r := Framing.SplitAll(t.rest + b);
    assert (frames + t.msgs) + r.msgs == frames + (t.msgs + r.msgs);
  }

  lemma InputConsume(input: seq<byte>, frames: seq<Framing.Message>, inbuf: seq<byte>)
    requires InputOk(input, frames, inbuf) && Framing.NextFrame(inbuf).Got?
    ensures var n := Framing.NextFrame(inbuf); InputOk(input, frames + [n.msg], n.rest)
  {
    hide Framing.NextFrame;
    var n := Framing.NextFrame(inbuf);
    var r := Framing.SplitAll(n.rest);
    assert frames + ([n.msg] + r.msgs) == (frames + [n.msg]) + r.msgs;
  }
}
