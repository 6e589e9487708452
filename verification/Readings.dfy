/** What reading does to each transaction: which frame answers it, what is stored of
    the reply, and that nothing else happens to it. */
module Readings {
  import opened Bytes
  import opened Pool
  import opened Engine
  import opened Core
  import opened Effects
  import opened Invariant
  import opened Steps
  import opened HandlerSteps
  import opened PingSteps
  import opened Progress
  import opened Runs
  import opened Shutdown
  import opened PingWindow
  import opened Timers
  import Intake
  import Framing
  import Verdicts
  import KeyValue
  import ResponseKind

  // ----- the reply kept -----

  /** What is stored of reply data: the fields of key/value data, else the data, marked
      as CSV or not by the first byte that decides. */
  ghost predicate StoredAs(data: seq<byte>, r: Response) {
    var open := data != [] && data[0] != EQUALS && data[0] != COMMA;
    if open && exists k :: ResponseKind.StopsAt(data, k) && data[k] == EQUALS then r == KeyValues(KeyValue.Decode(data))
    else if open && exists k :: ResponseKind.StopsAt(data, k) && data[k] in {COMMA, CR, LF} then r == Csv(data)
    else r == Bulk(data)
  }

  lemma BuiltAs(data: seq<byte>)
    ensures StoredAs(data, BuildResponse(data))
  {
    hide ResponseKind.KindOf, ResponseKind.StopsAt, KeyValue.Decode;
    ResponseKind.KindMeaning(data);
  }

  /** In every state of every run: what is stored with an answered transaction is its
      reply, under the right kind; with a lost one, a faked refusal. */
  lemma ReplyIsStored(disablePing: bool, states: seq<State>, steps: seq<Step>, i: nat, h: Handle)
    requires Execution(disablePing, states, steps) && i < |states| && h in states[i].pool.txns
    ensures var t := states[i].pool.txns[h];
            match t.fate
            case Answered(data) => StoredAs(data, t.response)
            case Lost => Refused(t.response)
            case Unresolved => t.response == NoResponse
  {
    hide Execution, Inv, StoredAs, BuildResponse, CoreOk;
    InvAlways(disablePing, states, steps, i);
    InvParts(states[i]);
    OutcomeIsStored(states[i].pool.txns[h]);
  }

  lemma OutcomeIsStored(t: Txn)
    requires TxnOk(t)
    ensures match t.fate
            case Answered(data) => StoredAs(data, t.response)
            case Lost => Refused(t.response)
            case Unresolved => t.response == NoResponse
  {
    hide StoredAs, BuildResponse;
    if t.fate.Answered? { BuiltAs(t.fate.data); }
  }

  /** `code` is `DENY`, and there is nothing else. */
  predicate Refused(r: Response) {
    r == KeyValues(Some(map[[0x63, 0x6F, 0x64, 0x65] := Some([0x44, 0x45, 0x4E, 0x59])]))
  }

  // ----- which frame answers -----

  /** The data of the first message with this id. */
  function FirstData(ms: seq<Framing.Message>, id: nat): seq<byte> {
    if ms == [] then [] else if ms[0].id == id then ms[0].data else FirstData(ms[1..], id)
  }

  /** `u` is `t` after the messages `ms`. */
  predicate AnsweredBy(t: Txn, ms: seq<Framing.Message>, u: Txn) {
    if t.status == Status.Pending && Verdicts.HasId(ms, t.id) then
      var d := FirstData(ms, t.id);
      u == t.(status := Status.Done, fate := Answered(d), response := u.response, timer := false)
    else u == t
  }

  lemma DispatchOneIs(s: State, m: Framing.Message, h: Handle)
    requires OwnsId(s.pool, h)
    ensures var r, t := Dispatch(s, m), s.pool.txns[h];
            && OwnsId(r.pool, h)
            && r.pool.txns[h] == if t.status == Status.Pending && m.id == t.id
                                 then t.(status := Status.Done, fate := Answered(m.data), response := r.pool.txns[h].response, timer := false)
                                 else t
  {
    hide BuildResponse, Without;
  }

  lemma {:induction false} DispatchedIs(s: State, ms: seq<Framing.Message>, h: Handle)
    requires OwnsId(s.pool, h)
    ensures h in DispatchAll(s, ms).pool.txns && AnsweredBy(s.pool.txns[h], ms, DispatchAll(s, ms).pool.txns[h])
    decreases |ms|
  {
    hide Dispatch, OwnsId, Verdicts.HasId;
    assert h in s.pool.txns by { OwnerLives(s.pool, h); }
    var t := s.pool.txns[h];
    if ms == [] {
      Verdicts.NoneHasId(t.id);
    } else {
      DispatchOneIs(s, ms[0], h);
      var r := Dispatch(s, ms[0]);
      DispatchedIs(r, ms[1..], h);
      assert ms == [ms[0]] + ms[1..];
      Verdicts.HasIdCons(ms[0], ms[1..], t.id);
    }
  }

  /** Then, if the stream broke, those still pending are lost. */
  predicate EndsAs(t: Txn, ms: seq<Framing.Message>, bad: bool, u: Txn) {
    if bad && t.status == Status.Pending && !Verdicts.HasId(ms, t.id) then
      u == t.(status := Status.Done, fate := Lost, response := u.response, timer := false)
    else AnsweredBy(t, ms, u)
  }

  lemma LostIs(s: State, h: Handle, away: set<Handle>)
    requires CoreOk(s, away) && h in s.pool.txns && !s.pool.txns[h].ping
    ensures var t := s.pool.txns[h]; var r := ConnFail(s, true);
            && h in r.pool.txns
            && r.pool.txns[h] == if t.status == Status.Pending
                                 then t.(status := Status.Done, fate := Lost, response := REFUSAL, timer := false) else t
  {
    OwnerFacts(s, h, away) by { hide OwnsId; }
    QueueFacts(s, away);
    hide CoreOk, ConnFail, LossReport, Marks, REFUSAL;
    ConnFailIs(s, true, away);
  }

  lemma LostAnswered(t: Txn, ms: seq<Framing.Message>, m: Txn, u: Txn)
    requires AnsweredBy(t, ms, m)
    requires u == if m.status == Status.Pending then m.(status := Status.Done, fate := Lost, response := REFUSAL, timer := false) else m
    ensures EndsAs(t, ms, true, u)
  {
  }

  /** What reading on does to a transaction other than the ping. */
  lemma ReadOnEnds(t: State, h: Handle, away: set<Handle>)
    requires CoreOk(t, away) && PingSettled(t) && h in t.pool.txns && !t.pool.txns[h].ping
    requires t.link.pingTxn.Some? && t.link.pingTxn.value in t.pool.txns ==> t.pool.txns[t.link.pingTxn.value].ping
    ensures var sp := Framing.SplitAll(t.link.inbuf);
            h in ReadOn(t).pool.txns && EndsAs(t.pool.txns[h], sp.msgs, sp.bad, ReadOn(t).pool.txns[h])
  {
    hide CoreOk, ReadLoop, ConnFail, DispatchAll, Framing.SplitAll, Leftover, Verdicts.HasId, OwnsId, PingSettled, REFUSAL;
    var ms := Framing.SplitAll(t.link.inbuf).msgs;
    ReadLoopIsFold(t);
    CoreReadLoop(t, away);
    OwnerFacts(t, h, away);
    DispatchedIs(t, ms, h);
    var (r, end) := ReadLoop(t);
    var u := if r.pool.pending == [] then ResetTimer(r) else r;
    CoreTimer(r, u, away);
    if end == Failed {
      LostIs(u, h, away);
      LostAnswered(t.pool.txns[h], ms, u.pool.txns[h], ReadOn(t).pool.txns[h]);
    }
  }

  lemma OnReadEnds(s: State, b: seq<byte>, h: Handle)
    requires Inv(s) && s.ctl.pc == Quiet && s.link.io == Up && s.link.status != Connecting
    requires h in s.pool.txns && !s.pool.txns[h].ping
    ensures var sp := Framing.SplitAll(s.link.inbuf + b); var r := ReadOn(Append(Enter(s), b));
            h in r.pool.txns && EndsAs(s.pool.txns[h], sp.msgs, sp.bad, r.pool.txns[h])
  {
    hide Inv, CoreOk, ReadOn, Exact, PingSettled, Framing.SplitAll, EndsAs;
    AppendInv(s, b);
    var t := Append(Enter(s), b);
    PingPointer(t);
    ReadOnEnds(t, h, {});
  }

  lemma ReadIs(s: State, b: seq<byte>)
    requires Enabled(s, OnRead(Some(b)))
    ensures s.ctl.pc == Quiet && s.link.io == Up && Do(s, OnRead(Some(b))) == ReadOn(Append(Enter(s), b))
  {
    hide ReadOn, Append;
  }

  /** In every run, at every read on a usable connection: a pending transaction is
      answered by the first message with its id; if there is none, it is lost if the
      stream breaks and stays pending if not. Transactions that are not pending stay as
      they are. `ms` are the messages that the buffer holds with the new bytes. */
  lemma ReadMeans(disablePing: bool, states: seq<State>, steps: seq<Step>, i: nat, b: seq<byte>, h: Handle)
    requires Execution(disablePing, states, steps) && i < |steps| && steps[i] == OnRead(Some(b))
    requires states[i].link.status != Connecting && h in states[i].pool.txns && !states[i].pool.txns[h].ping
    ensures var ms := Framing.SplitAll(states[i].link.inbuf + b).msgs;
            h in states[i + 1].pool.txns
            && EndsAs(states[i].pool.txns[h], ms, Verdicts.Breaks(states[i].link.inbuf + b), states[i + 1].pool.txns[h])
  {
    hide Do, Enabled, Inv, Framing.SplitAll, ReadOn, Verdicts.Breaks, EndsAs;
    assert Enabled(states[i], steps[i]) && states[i + 1] == Do(states[i], steps[i]);
    InvAlways(disablePing, states, steps, i);
    Verdicts.StreamVerdict(states[i].link.inbuf + b);
    ReadIs(states[i], b);
    OnReadEnds(states[i], b, h);
  }

  /** `u` is `t` once all that is ready was sent. */
  function SentIfReady(t: Txn): Txn {
    if t.status == Status.Ready then t.(status := Status.Pending, request := [], timer := t.timeout != 0) else t
  }

  lemma ResumeEnds(s: State, h: Handle)
    requires Inv(s) && s.ctl.pc == Cleaned(FromRead) && h in s.pool.txns && !s.pool.txns[h].ping
    ensures var sp := Framing.SplitAll(s.link.inbuf); var r := ReadOn(OpenUp(s));
            h in r.pool.txns && EndsAs(SentIfReady(s.pool.txns[h]), sp.msgs, sp.bad, r.pool.txns[h])
  {
    hide Inv, CoreOk, OpenUp, ReadOn, Exact, Framing.SplitAll, EndsAs, WasPrinted;
    OpenUpInv(s);
    OpenUpPrints(s, h);
    Intake.OpenUpInbuf(s);
    ReadyIff(s, h);
    var t := Goto(OpenUp(s), Deliver);
    InvCore(t);
    CoreTimer(t, OpenUp(s), Away(t));
    ReadOnEnds(OpenUp(s), h, Away(t));
  }

  lemma ReadyIff(s: State, h: Handle)
    requires Inv(s) && h in s.pool.txns
    ensures h in s.pool.ready <==> s.pool.txns[h].status == Status.Ready
  {
    hide Ledger, NoDup, PrintsOk, InSendOrder, WireOk, PastOk, InputOk, TraceOk, BatchOk, RepliesOk, DeliveredOk, Alive;
  }

  lemma ResumeIs(s: State)
    requires s.ctl.pc == Cleaned(FromRead)
    ensures Enabled(s, ResumeHandler) && Do(s, ResumeHandler) == ReadOn(OpenUp(s))
  {
    hide ReadOn, OpenUp;
  }

  /** The same where the handler goes on reading after the ping: everything ready is sent
      first, and takes part. */
  lemma ResumeReadMeans(disablePing: bool, states: seq<State>, steps: seq<Step>, i: nat, h: Handle)
    requires Execution(disablePing, states, steps) && i < |steps| && steps[i] == ResumeHandler
    requires states[i].ctl.pc == Cleaned(FromRead) && h in states[i].pool.txns && !states[i].pool.txns[h].ping
    ensures var ms := Framing.SplitAll(states[i].link.inbuf).msgs;
            h in states[i + 1].pool.txns
            && EndsAs(SentIfReady(states[i].pool.txns[h]), ms, Verdicts.Breaks(states[i].link.inbuf), states[i + 1].pool.txns[h])
  {
    hide Do, Enabled, Inv, Framing.SplitAll, ReadOn, OpenUp, Verdicts.Breaks, EndsAs;
    assert Enabled(states[i], steps[i]) && states[i + 1] == Do(states[i], steps[i]);
    InvAlways(disablePing, states, steps, i);
    Verdicts.StreamVerdict(states[i].link.inbuf);
    ResumeIs(states[i]);
    ResumeEnds(states[i], h);
  }
}
