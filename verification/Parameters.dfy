/** From the calls that set a transaction up to what is sent for it: the request and
    the timeout a payment goes out with are those its user set last. */
module Parameters {
  import opened Bytes
  import opened Pool
  import opened Engine
  import opened Core
  import opened CoreMoves
  import opened Effects
  import opened Invariant
  import opened Steps
  import opened HandlerSteps
  import opened PingSteps
  import opened Progress
  import opened Runs
  import opened PingWindow
  import opened Calls
  import Timers
  import KeyValue
  import Framing

  // ----- what the user set -----

  predicate IsNew(s: State, h: Handle) {
    h in s.pool.txns && s.pool.txns[h].status == Status.New
  }

  /** The value that was set last for this folded key, before state `n`. */
  function LastSet(states: seq<State>, steps: seq<Step>, n: nat, h: Handle, fk: seq<byte>): Option<seq<byte>>
    requires n <= |steps| < |states|
  {
    if n == 0 then None
    else
      var a := steps[n - 1];
      if a.SetParam? && a.h == h && a.key != [] && KeyValue.Fold(a.key) == fk && IsNew(states[n - 1], h) then Some(a.value)
      else LastSet(states, steps, n - 1, h, fk)
  }

  /** The timeout that was set last before state `n`; none at all counts as 0. */
  function LastTimeout(states: seq<State>, steps: seq<Step>, n: nat, h: Handle): nat
    requires n <= |steps| < |states|
  {
    if n == 0 then 0
    else
      var a := steps[n - 1];
      if a.SetTimeout? && a.h == h && IsNew(states[n - 1], h) then a.secs else LastTimeout(states, steps, n - 1, h)
  }

  /** These parameters are what was set: one for each key that was, with the last value. */
  ghost predicate AsSet(states: seq<State>, steps: seq<Step>, n: nat, h: Handle, ps: seq<KeyValue.Pair>)
    requires n <= |steps| < |states|
  {
    KeyValue.DistinctKeys(ps) && forall fk :: KeyValue.ValueOf(ps, fk) == LastSet(states, steps, n, h, fk)
  }

  lemma {:induction false} NothingSetYet(disablePing: bool, states: seq<State>, steps: seq<Step>, n: nat, h: Handle)
    requires Execution(disablePing, states, steps) && n < |states| && h >= states[n].pool.next
    ensures AsSet(states, steps, n, h, []) && LastTimeout(states, steps, n, h) == 0
  {
    hide Inv, Do, Enabled, HistAdvances;
    if n > 0 {
      InvAlways(disablePing, states, steps, n - 1);
      assert Enabled(states[n - 1], steps[n - 1]);
      StepAdvances(states[n - 1], steps[n - 1]);
      NothingSetYet(disablePing, states, steps, n - 1, h);
      InvParts(states[n - 1]);
    }
  }

  // ----- step by step -----

  /** What step `a` does to the request and the timeout of a transaction not yet sent. */
  predicate Kept(s: State, a: Step, h: Handle, u: Txn) {
    if h !in s.pool.txns then h == s.pool.next && u.request == [] && u.timeout == 0
    else
      var t := s.pool.txns[h];
      && !OnWire(t)
      && u.request == (if a.SetParam? && a.h == h && a.key != [] && t.status == Status.New
                       then KeyValue.SetPair(t.request, a.key, a.value) else t.request)
      && u.timeout == (if a.SetTimeout? && a.h == h && t.status == Status.New then a.secs else t.timeout)
  }

  lemma SettingKeeps(s: State, a: Step, h: Handle)
    requires Enabled(s, a) && (a.New? || a.SetParam? || a.SetTimeout? || a.SetIdleTimeout?)
    requires s.pool.next !in s.pool.txns
    requires h in Do(s, a).pool.txns && !OnWire(Do(s, a).pool.txns[h])
    ensures Kept(s, a, h, Do(s, a).pool.txns[h])
  {
    hide KeyValue.SetPair, FreeId;
  }

  lemma SendingKeeps(s: State, g: Handle, h: Handle)
    requires Inv(s) && Enabled(s, Step.Send(g))
    requires h in DoSend(s, g).pool.txns && !OnWire(DoSend(s, g).pool.txns[h])
    ensures Kept(s, Step.Send(g), h, DoSend(s, g).pool.txns[h])
  {
    hide Inv, SentTo, DoSend;
    SendDoes(s, g);
    SentLeaves(s, g, DoSend(s, g), h);
  }

  lemma UnsentStep(s: State, a: Step, h: Handle)
    requires Inv(s) && Enabled(s, a) && h in Do(s, a).pool.txns && !OnWire(Do(s, a).pool.txns[h])
    ensures Kept(s, a, h, Do(s, a).pool.txns[h])
  {
    hide Inv, Enabled, KeyValue.SetPair, DoSend;
    if a.Send? {
      hide Kept;
      SendingKeeps(s, a.h, h);
    } else if !Changes(a) {
      hide Do;
      OthersUntouched(s, a);
    } else {
      hide Kept, Do;
      InvParts(s);
      SettingKeeps(s, a, h);
    }
  }

  lemma SentLeaves(s: State, g: Handle, r: State, h: Handle)
    requires g in s.pool.txns && (if CanBeSent(s, g) then SentTo(s, g, r) else r == s)
    requires h in r.pool.txns && !OnWire(r.pool.txns[h])
    ensures h in s.pool.txns && !OnWire(s.pool.txns[h])
    ensures r.pool.txns[h].request == s.pool.txns[h].request && r.pool.txns[h].timeout == s.pool.txns[h].timeout
  {
  }

  /** What a step prints is the request of a transaction not sent before, or the ping. */
  lemma NewPrint(s: State, a: Step, k: nat)
    requires Inv(s) && Enabled(s, a) && |s.hist.printed| <= k < |Do(s, a).hist.printed|
    ensures var pr := Do(s, a).hist.printed[k];
            if pr.ping then a.OnConnected? && pr.msg.data == [0x50, 0x49, 0x4E, 0x47]
            else !a.SetParam? && FreshPrint(s, pr)
  {
    hide Inv, Do, Enabled, Prints, PoolAdvances, WasPrinted, KeyValue.Payload;
    StepKeepsInv(s, a);
    StepAdvances(s, a);
    var pr := Do(s, a).hist.printed[k];
    WhoIsPrinted(s, a, pr.trans);
    PrintedNow(s, Do(s, a), k);
    PrintedIs(s, a, k);
  }

  lemma PrintedNow(s: State, r: State, k: nat)
    requires Inv(r) && s.hist.printed <= r.hist.printed && |s.hist.printed| <= k < |r.hist.printed|
    ensures WasPrinted(r.hist.printed, r.hist.printed[k].trans) && !WasPrinted(s.hist.printed, r.hist.printed[k].trans)
  {
    hide PoolOk, InSendOrder, WireOk, PastOk, InputOk, TraceOk, BatchOk, RepliesOk, DeliveredOk, Alive;
    assert forall i :: 0 <= i < |s.hist.printed| ==> s.hist.printed[i] == r.hist.printed[i];
  }

  /** The print of a payment not sent before. */
  predicate FreshPrint(s: State, pr: Print) {
    && pr.trans in s.pool.txns && !OnWire(s.pool.txns[pr.trans]) && !pr.ping
    && s.pool.txns[pr.trans].request != []
    && pr.msg.data == KeyValue.Payload(s.pool.txns[pr.trans].request)
  }

  lemma PrintedIs(s: State, a: Step, k: nat)
    requires Inv(s) && Enabled(s, a) && |s.hist.printed| <= k < |Do(s, a).hist.printed|
    requires Prints(s, a, Do(s, a).hist.printed[k].trans)
    ensures var pr := Do(s, a).hist.printed[k];
            if a.OnConnected? then pr.ping && pr.msg.data == [0x50, 0x49, 0x4E, 0x47] else !a.SetParam? && FreshPrint(s, pr)
  {
    hide Inv, FreeId, PingPrinted, DoSend, DoResume, FreshPrint;
    match a
    case OnConnected(id, n) =>
      PingParts(s, id);
      KeyValue.PayloadMeans(KeyValue.PING_REQUEST) by { PingKeys(); }
    case Send(h) => SendPrintedIs(s, h, k);
    case ResumeHandler => ResumePrintedIs(s, k);
    case _ =>
  }

  lemma SendPrintedIs(s: State, h: Handle, k: nat)
    requires Inv(s) && Enabled(s, Step.Send(h)) && |s.hist.printed| <= k < |DoSend(s, h).hist.printed|
    ensures FreshPrint(s, DoSend(s, h).hist.printed[k])
  {
    hide Inv, DoSend, SentTo, KeyValue.Payload;
    SendDoes(s, h);
    if CanBeSent(s, h) {
      SentPrints(s, h, DoSend(s, h));
      NotPingYet(s, h);
    }
  }

  lemma NotPingYet(s: State, h: Handle)
    requires Inv(s) && CanBeSent(s, h)
    ensures !s.pool.txns[h].ping
  {
    InvParts(s);
    hide Inv;
  }

  lemma ResumePrintedIs(s: State, k: nat)
    requires Inv(s) && s.ctl.pc.Cleaned? && s.ctl.pc.k != FromTimeout
    requires |s.hist.printed| <= k < |DoResume(s).hist.printed|
    ensures FreshPrint(s, DoResume(s).hist.printed[k])
  {
    hide Inv, DoResume, KeyValue.Payload, PrintsOf;
    InvParts(s);
    ResumePrinted(s);
    PrintsOfAt(s, s.pool.ready, k - |s.hist.printed|);
  }

  lemma PingKeys()
    ensures KeyValue.GoodKey(KeyValue.PING_REQUEST[0].key)
  {
    assert KeyValue.TrimLeft(KeyValue.ACTION) == KeyValue.ACTION && KeyValue.TrimRight(KeyValue.ACTION) == KeyValue.ACTION;
  }

  lemma SentPrints(s: State, h: Handle, r: State)
    requires CanBeSent(s, h) && SentTo(s, h, r)
    ensures r.hist.printed == s.hist.printed || r.hist.printed == s.hist.printed + [PrintAs(s.pool.txns[h], h, s.hist.sends)]
  {
  }

  /** The request of `t` as a printed frame. */
  function PrintAs(t: Txn, h: Handle, order: nat): Print {
    Print(h, Framing.Message(t.id, KeyValue.Payload(t.request)), false, order)
  }

  /** The request of each, in order. */
  lemma {:induction false} PrintsOfAt(s: State, q: seq<Handle>, k: nat)
    requires (forall h :: h in q ==> h in s.pool.txns) && k < |PrintsOf(s, q)|
    ensures |PrintsOf(s, q)| == |q| && PrintsOf(s, q)[k] == PrintOf(s, q[k])
    decreases |q|
  {
    hide KeyValue.Payload;
    if k == 0 {
      if |q| > 1 && |PrintsOf(s, q[1..])| > 0 { PrintsOfAt(s, q[1..], 0); }
      PrintsOfLength(s, q);
    } else {
      PrintsOfAt(s, q[1..], k - 1);
    }
  }

  lemma {:induction false} PrintsOfLength(s: State, q: seq<Handle>)
    requires forall h :: h in q ==> h in s.pool.txns
    ensures |PrintsOf(s, q)| == |q|
  {
    if q != [] { PrintsOfLength(s, q[1..]); }
  }

  lemma ResumePrinted(s: State)
    requires Inv(s) && s.ctl.pc.Cleaned? && s.ctl.pc.k != FromTimeout
    ensures DoResume(s).hist.printed == s.hist.printed + PrintsOf(s, s.pool.ready)
  {
    hide Inv, CoreOk, OpenUp, ReadOn, ConnFail, WasPrinted, PrintsOf;
    OpenUpPrinted(s);
    if s.ctl.pc.k == FromRead {
      OpenUpPointer(s);
      OpenUpInv(s) by { hide Exact; }
      var t := Goto(OpenUp(s), Deliver);
      InvCore(t);
      CoreTimer(t, OpenUp(s), Away(t));
      ReadOnQuiet(OpenUp(s), Away(t));
    }
  }

  lemma OpenUpPrinted(s: State)
    requires Inv(s) && s.ctl.pc.Cleaned?
    ensures OpenUp(s).hist.printed == s.hist.printed + PrintsOf(s, s.pool.ready)
  {
    hide Inv, CoreOk, PromoteAll, Stream, PrintsOf;
    InvCore(s);
    var c := s.(link := s.link.(pingTxn := None, status := Connected));
    CoreTimer(s, c, Away(s));
    CoreEmit(c, ConnConnected, Away(s));
    PromoteAllIs(Emit(c, ConnConnected), Away(s));
    PrintsOfSame(s, Emit(c, ConnConnected), s.pool.ready);
  }

  // ----- over runs -----

  /** In every state of every run: the request of a transaction not sent yet has one
      parameter for every key that was set, with the value that was set last. */
  lemma {:induction false} RequestIsAsSet(disablePing: bool, states: seq<State>, steps: seq<Step>, n: nat, h: Handle)
    requires Execution(disablePing, states, steps) && n < |states|
    requires h in states[n].pool.txns && !OnWire(states[n].pool.txns[h])
    ensures AsSet(states, steps, n, h, states[n].pool.txns[h].request)
  {
    hide Inv, Do, Enabled, OnWire, KeyValue.SetPair, KeyValue.ValueOf, KeyValue.DistinctKeys, KeyValue.Fold;
    if n > 0 {
      var s, a := states[n - 1], steps[n - 1];
      InvAlways(disablePing, states, steps, n - 1);
      assert Enabled(s, a);
      UnsentStep(s, a, h);
      if h !in s.pool.txns {
        NothingSetYet(disablePing, states, steps, n - 1, h);
        NotThere(s, a, h);
      } else {
        RequestIsAsSet(disablePing, states, steps, n - 1, h);
        if a.SetParam? && a.h == h && a.key != [] && IsNew(s, h) {
          var ps := s.pool.txns[h].request;
          KeyValue.SetPairDistinct(ps, a.key, a.value);
          forall fk ensures KeyValue.ValueOf(KeyValue.SetPair(ps, a.key, a.value), fk) == LastSet(states, steps, n, h, fk) {
            KeyValue.SetPairValue(ps, a.key, a.value, fk);
          }
        }
      }
    }
  }

  lemma NotThere(s: State, a: Step, h: Handle)
    requires h !in s.pool.txns
    ensures !IsNew(s, h)
  {
  }

  /** Was this sent with the parameters set for it? */
  ghost predicate SentAsSet(states: seq<State>, steps: seq<Step>, n: nat, pr: Print)
    requires n <= |steps| < |states|
  {
    exists ps :: ps != [] && pr.msg.data == KeyValue.Payload(ps) && AsSet(states, steps, n, pr.trans, ps)
  }

  /** In every state of every run: what was printed for a payment is the encoding of a
      request with one parameter for every key that was ever set, and for each the value
      that was set last; what was printed for a ping says PING. */
  lemma {:induction false} PrintedAsSet(disablePing: bool, states: seq<State>, steps: seq<Step>, n: nat, k: nat)
    requires Execution(disablePing, states, steps) && n < |states| && k < |states[n].hist.printed|
    ensures var pr := states[n].hist.printed[k];
            if pr.ping then pr.msg.data == [0x50, 0x49, 0x4E, 0x47] else SentAsSet(states, steps, n, pr)
  {
    hide Inv, Do, Enabled, KeyValue.Payload, AsSet, PoolAdvances;
    if n > 0 {
      var s, a := states[n - 1], steps[n - 1];
      InvAlways(disablePing, states, steps, n - 1);
      assert Enabled(s, a);
      StepAdvances(s, a);
      if k < |s.hist.printed| {
        PrintedAsSet(disablePing, states, steps, n - 1, k);
        var pr := s.hist.printed[k];
        if !pr.ping {
          PrintedIsOld(s, k);
          var ps :| ps != [] && pr.msg.data == KeyValue.Payload(ps) && AsSet(states, steps, n - 1, pr.trans, ps);
          StillAsSet(states, steps, n, pr.trans, ps);
        }
      } else {
        NewPrint(s, a, k);
        var pr := states[n].hist.printed[k];
        if !pr.ping {
          RequestIsAsSet(disablePing, states, steps, n - 1, pr.trans);
          StillAsSet(states, steps, n, pr.trans, s.pool.txns[pr.trans].request);
        }
      }
    }
  }

  lemma StillAsSet(states: seq<State>, steps: seq<Step>, n: nat, h: Handle, ps: seq<KeyValue.Pair>)
    requires 1 <= n <= |steps| < |states| && AsSet(states, steps, n - 1, h, ps)
    requires !steps[n - 1].SetParam? || !IsNew(states[n - 1], h)
    ensures AsSet(states, steps, n, h, ps)
  {
    hide KeyValue.ValueOf, KeyValue.DistinctKeys;
  }

  lemma PrintedIsOld(s: State, k: nat)
    requires Inv(s) && k < |s.hist.printed|
    ensures !IsNew(s, s.hist.printed[k].trans)
  {
    hide PoolOk, InSendOrder, WireOk, PastOk, InputOk, TraceOk, BatchOk, RepliesOk, DeliveredOk, Alive;
  }

  /** In every state of every run: the timeout of a transaction that is not done is the
      one set last; with `Timers.TimerMeaning`, its timer runs for a timeout so set. */
  lemma {:induction false} TimeoutIsAsSet(disablePing: bool, states: seq<State>, steps: seq<Step>, n: nat, h: Handle)
    requires Execution(disablePing, states, steps) && n < |states|
    requires h in states[n].pool.txns && states[n].pool.txns[h].status != Status.Done
    ensures states[n].pool.txns[h].timeout == LastTimeout(states, steps, n, h)
  {
    hide Inv, Do, Enabled, Timers.TimerKept;
    if n > 0 {
      var s, a := states[n - 1], steps[n - 1];
      InvAlways(disablePing, states, steps, n - 1);
      assert Enabled(s, a);
      if h !in s.pool.txns {
        NothingSetYet(disablePing, states, steps, n - 1, h) by { FreshHandle(s, a, h); }
        FreshTimeout(s, a, h);
        NotThere(s, a, h);
      } else {
        NotDoneBefore(s, a, h);
        TimeoutIsAsSet(disablePing, states, steps, n - 1, h);
        TimeoutStep(s, a, h);
      }
    }
  }

  lemma NotDoneBefore(s: State, a: Step, h: Handle)
    requires Inv(s) && Enabled(s, a) && h in s.pool.txns && h in Do(s, a).pool.txns
    requires Do(s, a).pool.txns[h].status != Status.Done
    ensures s.pool.txns[h].status != Status.Done
  {
    hide Inv, Do, Enabled, HistAdvances;
    StepAdvances(s, a);
    StepKeepsInv(s, a);
    LiveNotFreed(Do(s, a), h);
  }

  lemma TimeoutStep(s: State, a: Step, h: Handle)
    requires Inv(s) && Enabled(s, a) && h in s.pool.txns && h in Do(s, a).pool.txns
    requires Do(s, a).pool.txns[h].status != Status.Done
    ensures Do(s, a).pool.txns[h].timeout
            == if a.SetTimeout? && a.h == h && IsNew(s, h) then a.secs else s.pool.txns[h].timeout
  {
    hide Inv, Do, Enabled;
    if Do(s, a).pool.txns[h].status == Status.Pending {
      Timers.PendingTimer(s, a, h);
      if a.SetTimeout? { TimeoutOfNew(s, a, h); }
    } else {
      UnsentStep(s, a, h);
    }
  }

  lemma TimeoutOfNew(s: State, a: Step, h: Handle)
    requires Enabled(s, a) && a.SetTimeout? && h in Do(s, a).pool.txns && Do(s, a).pool.txns[h].status == Status.Pending
    ensures !IsNew(s, h)
  {
  }

  lemma FreshHandle(s: State, a: Step, h: Handle)
    requires Inv(s) && Enabled(s, a) && h !in s.pool.txns && h in Do(s, a).pool.txns
    ensures h >= s.pool.next
  {
    hide Inv, Do, Enabled, HistAdvances;
    StepAdvances(s, a);
    StepKeepsInv(s, a);
    LiveNotFreed(Do(s, a), h);
    if h < s.pool.next { OldIsFreed(s, h); }
  }

  lemma OldIsFreed(s: State, h: Handle)
    requires Inv(s) && h < s.pool.next
    ensures h in s.pool.txns || h in s.pool.freed
  {
    hide QueuesOk, Indexed, DeferredOk, TxnsOk, PrintsOk, InSendOrder, WireOk, PastOk, InputOk, TraceOk, BatchOk,
         RepliesOk, DeliveredOk, Alive, NoDup;
  }

  lemma FreshTimeout(s: State, a: Step, h: Handle)
    requires Inv(s) && Enabled(s, a) && h !in s.pool.txns && h in Do(s, a).pool.txns
    requires Do(s, a).pool.txns[h].status != Status.Done
    ensures Do(s, a).pool.txns[h].timeout == 0
  {
    hide Inv, Do, Enabled;
    if Do(s, a).pool.txns[h].status == Status.Pending {
      FreshPing(s, a, h);
    } else {
      UnsentStep(s, a, h);
    }
  }

  lemma FreshPing(s: State, a: Step, h: Handle)
    requires Inv(s) && Enabled(s, a) && h !in s.pool.txns && h in Do(s, a).pool.txns
    requires Do(s, a).pool.txns[h].status == Status.Pending
    ensures Do(s, a).pool.txns[h].timeout == 0
  {
    hide Inv, CoreOk, DrainAll, FreeId, PingPrinted, DoSend, DoResume, ReadOn, ConnFail, Append, Without, DoDelete,
         DoOnConnected, DoOnConnTimer;
    match a
    case Send(g) => SendMoves(s, g, h);
    case Delete(g) => DeleteMoves(s, g);
    case ResumeHandler => Timers.ResumeKeeps(s, h);
    case DrainDeferred => Timers.DrainKeepsTxns(s, h);
    case OnConnected(id, n) => Timers.ConnectedTxns(s, id, n);
    case OnConnTimer => Timers.ConnTimerStill(s);
    case OnRead(input) =>
      if input.Some? { Timers.OnReadStill(s, input.value); }
    case OnLinkLost(isError) =>
      Entered(s) by { hide Exact; }
      Timers.ConnFailStill(Enter(s), isError, {});
    case _ =>
  }
}
