/** Whole runs: any number of calls, I/O events, timers, failures and reconnects,
    interleaved at every point where the connection lock is free. */
module Runs {
  import opened Bytes
  import opened Pool
  import opened Engine
  import opened Traces
  import opened Core
  import CoreMoves
  import opened Effects
  import opened Invariant
  import opened Steps
  import opened HandlerSteps
  import opened PingSteps
  import opened Progress
  import Framing

  /** `states[i]` takes step `steps[i]` to `states[i + 1]`, from a fresh connection. */
  predicate Execution(disablePing: bool, states: seq<State>, steps: seq<Step>) {
    && |states| == |steps| + 1
    && states[0] == Init(disablePing)
    && (forall i :: 0 <= i < |steps| ==> Enabled(states[i], steps[i]) && states[i + 1] == Do(states[i], steps[i]))
  }

  /** One more step at the end of a run. */
  lemma Extend(disablePing: bool, states: seq<State>, steps: seq<Step>, a: Step) returns (ss: seq<State>, aa: seq<Step>)
    requires Execution(disablePing, states, steps) && Enabled(states[|steps|], a)
    ensures ss == states + [Do(states[|steps|], a)] && aa == steps + [a]
    ensures Execution(disablePing, ss, aa)
  {
    hide Do, Enabled;
    ss, aa := states + [Do(states[|steps|], a)], steps + [a];
    forall i | 0 <= i < |aa| ensures Enabled(ss[i], aa[i]) && ss[i + 1] == Do(ss[i], aa[i]) {
      if i < |steps| {
        assert ss[i] == states[i] && ss[i + 1] == states[i + 1] && aa[i] == steps[i];
      }
    }
  }

  /** The invariant holds in every state of every run. */
  lemma {:induction false} InvAlways(disablePing: bool, states: seq<State>, steps: seq<Step>, i: nat)
    requires Execution(disablePing, states, steps) && i < |states|
    ensures Inv(states[i])
  {
    hide Inv, Do, Enabled;
    if i == 0 {
      InitInv(disablePing);
    } else {
      InvAlways(disablePing, states, steps, i - 1);
      assert Enabled(states[i - 1], steps[i - 1]);
      StepKeepsInv(states[i - 1], steps[i - 1]);
    }
  }

  /** Later states of a run only add to the history of earlier ones, and every
      transaction has only moved forward or been freed. */
  lemma {:induction false} AdvancesAlways(disablePing: bool, states: seq<State>, steps: seq<Step>, i: nat, j: nat)
    requires Execution(disablePing, states, steps) && i <= j < |states|
    ensures Advances(states[i], states[j])
    decreases j
  {
    hide Inv, Do, Enabled, Advances;
    if i == j {
      AdvancesRefl(states[i]);
    } else {
      AdvancesAlways(disablePing, states, steps, i, j - 1);
      InvAlways(disablePing, states, steps, j - 1);
      assert Enabled(states[j - 1], steps[j - 1]);
      StepAdvances(states[j - 1], steps[j - 1]);
      AdvancesTrans(states[i], states[j - 1], states[j]);
    }
  }

  // ----- no payment is sent twice -----

  /** How often transaction `h` was put on any wire. */
  function TimesPrinted(printed: seq<Print>, h: Handle): nat {
    if printed == [] then 0
    else TimesPrinted(printed[..|printed| - 1], h) + if printed[|printed| - 1].trans == h then 1 else 0
  }

  lemma {:induction false} TimesOfDistinct(printed: seq<Print>, h: Handle)
    requires forall i, j :: 0 <= i < j < |printed| ==> printed[i].trans != printed[j].trans
    ensures TimesPrinted(printed, h) == if WasPrinted(printed, h) then 1 else 0
    decreases |printed|
  {
    if printed != [] {
      var init, last := printed[..|printed| - 1], printed[|printed| - 1];
      TimesOfDistinct(init, h);
      assert printed == init + [last];
      WasPrintedSnoc(init, last, h);
      assert forall i :: 0 <= i < |init| ==> init[i].trans != last.trans;
    }
  }

  /** In every reachable state, over all connections so far: no transaction was
      put on a wire twice; a live one exactly once when it is pending or done,
      and never when it is new or ready; payments went out in the order of their
      `send` calls. */
  lemma SentAtMostOnce(disablePing: bool, states: seq<State>, steps: seq<Step>, i: nat, h: Handle)
    requires Execution(disablePing, states, steps) && i < |states|
    ensures var s := states[i];
            && TimesPrinted(s.hist.printed, h) <= 1
            && (h in s.pool.txns ==> TimesPrinted(s.hist.printed, h) == if OnWire(s.pool.txns[h]) then 1 else 0)
            && Sorted(Paid(s.hist.printed) + Orders(s.pool.txns, s.pool.ready))
  {
    InvAlways(disablePing, states, steps, i);
    var s := states[i];
    hide PoolOk, WireOk, PastOk, InputOk, TraceOk, BatchOk, RepliesOk, DeliveredOk, Alive, Sorted, Paid, Orders,
         Execution;
    TimesOfDistinct(s.hist.printed, h);
  }

  /** Once on a wire, for good on it and never again: a transaction printed by
      some point of a run has been printed exactly once at every later point,
      through failures, reconnects and its own deletion. */
  lemma NeverResent(disablePing: bool, states: seq<State>, steps: seq<Step>, i: nat, j: nat, h: Handle)
    requires Execution(disablePing, states, steps) && i <= j < |states|
    requires WasPrinted(states[i].hist.printed, h)
    ensures TimesPrinted(states[j].hist.printed, h) == 1
  {
    AdvancesAlways(disablePing, states, steps, i, j);
    SentAtMostOnce(disablePing, states, steps, j, h);
    InvAlways(disablePing, states, steps, j);
    hide PoolOk, WireOk, PastOk, InputOk, TraceOk, BatchOk, RepliesOk, DeliveredOk, Alive, InSendOrder, Execution,
         PoolAdvances;
    var a, b := states[i].hist.printed, states[j].hist.printed;
    var k :| 0 <= k < |a| && a[k].trans == h;
    assert b[k] == a[k];
    TimesOfDistinct(b, h);
  }

  /** Statuses only move forward: NEW, READY, PENDING, DONE; a transaction that
      is done keeps its outcome; one that was freed never comes back. */
  lemma ForwardOnly(disablePing: bool, states: seq<State>, steps: seq<Step>, i: nat, j: nat, h: Handle)
    requires Execution(disablePing, states, steps) && i <= j < |states|
    ensures h in states[i].pool.txns && h in states[j].pool.txns ==> Later(states[i].pool.txns[h], states[j].pool.txns[h])
    ensures h in states[i].pool.freed ==> h in states[j].pool.freed && h !in states[j].pool.txns
  {
    AdvancesAlways(disablePing, states, steps, i, j);
    InvAlways(disablePing, states, steps, j);
    LiveNotFreed(states[j], h);
    hide Inv, Execution, HistAdvances, Later;
  }

  lemma LiveNotFreed(s: State, h: Handle)
    requires Inv(s)
    ensures h in s.pool.txns ==> h !in s.pool.freed
  {
    hide QueuesOk, Indexed, DeferredOk, TxnsOk, PrintsOk, InSendOrder, WireOk, PastOk, InputOk, TraceOk, BatchOk,
         RepliesOk, DeliveredOk, Alive;
  }

  // ----- memory -----

  /** Every handle ever given out is live or freed, and never freed twice; once
      the connection is gone, each has been freed exactly once. */
  lemma FreedExactlyOnce(disablePing: bool, states: seq<State>, steps: seq<Step>, i: nat)
    requires Execution(disablePing, states, steps) && i < |states|
    ensures var s := states[i];
            && NoDup(s.pool.freed)
            && (forall h: Handle :: h < s.pool.next ==> (h in s.pool.txns) != (h in s.pool.freed))
            && (forall h :: h in s.pool.freed ==> h < s.pool.next)
            && (s.ctl.pc == Gone ==> forall h: Handle :: h < s.pool.next <==> h in s.pool.freed)
  {
    InvAlways(disablePing, states, steps, i);
    hide QueuesOk, Indexed, DeferredOk, TxnsOk, PrintsOk, InSendOrder, WireOk, PastOk, InputOk, TraceOk, BatchOk,
         RepliesOk, DeliveredOk, Alive, NoDup, Execution;
  }

  /** The connection object is never freed while the handler is using it. */
  lemma NotFreedInUse(disablePing: bool, states: seq<State>, steps: seq<Step>, i: nat)
    requires Execution(disablePing, states, steps) && i < |steps| && states[i + 1].ctl.pc == Gone
    ensures !states[i].ctl.inUse && steps[i] in {Destroy, Finish}
  {
    InvAlways(disablePing, states, steps, i);
    GoneOnlyBy(states[i], steps[i]);
    hide Execution;
  }

  lemma GoneOnlyBy(s: State, a: Step)
    requires Inv(s) && Enabled(s, a) && Do(s, a).ctl.pc == Gone
    ensures !s.ctl.inUse && a in {Destroy, Finish}
  {
    PcAfter(s, a);
    hide CoreOk, DeliveredOk, Coupled, PingOk, FirstOk, LogMatches;
  }

  /** Which steps may end at the freed connection. */
  lemma PcAfter(s: State, a: Step)
    requires Inv(s) && Enabled(s, a)
    ensures a !in {Destroy, Finish} ==> Do(s, a).ctl.pc != Gone
    ensures a == Destroy && s.ctl.inUse ==> Do(s, a).ctl.pc != Gone
  {
    hide Inv, ConnFail, SendMessages, ReadOn, DrainAll, DoOnConnected, FreeId, Move, Erase, Defer, FreeAll, DoResume,
         DoOnRead;
    NotGone(s, a);
    match a
    case Send(h) =>
      if Sendable(s.pool.txns[h]) { InvCore(s); ReadySends(s, h); }
    case OnLinkLost(isError) => FailPc(s, isError);
    case OnRead(input) => OnReadPc(s, input);
    case OnConnected(id, n) => OnConnectedPc(s, id, n);
    case ResumeHandler => ResumePc(s);
    case _ =>
  }

  lemma NotGone(s: State, a: Step)
    requires Inv(s) && Enabled(s, a)
    ensures s.ctl.pc != Gone
  {
    hide CoreOk, DeliveredOk, Alive, PingPrinted, FreeId, Usable;
  }

  lemma ReadySends(s: State, h: Handle)
    requires CoreOk(s, Away(s)) && h in s.pool.txns && Sendable(s.pool.txns[h])
    ensures SendMessages(MakeReady(s, h)).ctl == s.ctl
  {
    hide CoreOk, SendMessages;
    CoreMovesReady(s, h);
    SendKeeps(MakeReady(s, h), Away(s));
  }

  lemma CoreMovesReady(s: State, h: Handle)
    requires CoreOk(s, Away(s)) && h in s.pool.txns && Sendable(s.pool.txns[h])
    ensures CoreOk(MakeReady(s, h), Away(s))
  {
    hide CoreOk;
    CoreMoves.CoreMakeReady(s, h, Away(s));
  }

  lemma FailPc(s: State, isError: bool)
    requires Inv(s) && s.ctl.pc == Quiet
    ensures ConnFail(Enter(s), isError).ctl.pc == Deliver
  {
    hide Inv, CoreOk, ConnFail, Exact, LossReport, Marks, Forsaken;
    Entered(s);
    ConnFailIs(Enter(s), isError, {});
  }

  lemma OnReadPc(s: State, input: Option<seq<byte>>)
    ensures DoOnRead(s, input).ctl.pc != Gone
  {
    hide ReadLoop, ConnFail;
  }

  lemma OnConnectedPc(s: State, id: nat, n: nat)
    requires Enabled(s, OnConnected(id, n))
    ensures Do(s, OnConnected(id, n)).ctl.pc != Gone
  {
    hide PingPrinted;
  }

  lemma ConnectedStatus(s: State, id: nat, n: nat)
    requires Enabled(s, OnConnected(id, n))
    ensures DoOnConnected(s, id, n).link.status == s.link.status
  {
    hide PingPrinted, FreeId, Without;
    if !s.link.disablePing { CoreMoves.PingParts(s, id); }
  }

  lemma ResumePc(s: State)
    requires s.ctl.pc.Cleaned?
    ensures DoResume(s).ctl.pc != Gone
  {
    hide ReadLoop, ConnFail, OpenUp;
  }

  // ----- events -----

  /** The events delivered about any one transaction, at any point of any run,
      read NOCONNECT* TIMEOUT? (DONE|ERROR)? or are a prefix of such a word; so
      do the events queued. At most one final event. */
  lemma TraceInLanguage(disablePing: bool, states: seq<State>, steps: seq<Step>, i: nat, h: Handle)
    requires Execution(disablePing, states, steps) && i < |states|
    ensures InLanguage(EventsOf(states[i].hist.log, h))
    ensures InLanguage(Of(states[i].hist.delivered, h))
  {
    InvAlways(disablePing, states, steps, i);
    var s := states[i];
    hide PoolOk, PrintsOk, InSendOrder, WireOk, PastOk, InputOk, BatchOk, RepliesOk, Alive, Execution, InLanguage,
         PhaseOf, EventsOf, Of, Emitted, Run;
    PhaseIsRun(s.hist.log, h);
    RunAccepts(EventsOf(s.hist.log, h));
    EventsOfEmitted(s.hist.log, h);
    DeliveredPrefix(s);
    var es, k := Emitted(s.hist.log), |s.hist.delivered|;
    assert es[..k] == s.hist.delivered;
    OfPrefix(es, k, h);
    LanguagePrefix(Of(es, h), |Of(s.hist.delivered, h)|);
  }

  /** The events `es` of transaction `h` tell its fate: at most the last is final, and
      it is DONE after a reply, ERROR after a loss, and missing before either. */
  predicate TellsFate(t: Txn, es: seq<Event>, h: Handle) {
    && (forall k :: 0 <= k < |es| - 1 ==> !Final(es[k]))
    && (t.fate.Answered? && !t.ping ==> es != [] && es[|es| - 1] == TransDone(h))
    && (t.fate == Lost ==> es != [] && es[|es| - 1] == TransError(h))
    && (t.fate == Unresolved ==> forall k :: 0 <= k < |es| ==> !Final(es[k]))
  }

  lemma FitsTells(t: Txn, log: seq<Mark>, h: Handle)
    requires Fits(t, PhaseOf(log, h)) && PhaseOf(log, h) != Bad
    requires t.fate == Unresolved ==> !PhaseOf(log, h).Ended?
    ensures TellsFate(t, EventsOf(log, h), h)
  {
    hide EventsOf, PhaseOf, Final;
    PhaseTellsFinal(log, h);
  }

  /** Exactly one final event, and the right one: in every reachable state, DONE has
      been queued last for a live transaction that took a reply (but for the ping,
      which is not reported), ERROR for one that was lost with its connection, and
      neither for one that is not finished. */
  lemma FinalEventTellsFate(disablePing: bool, states: seq<State>, steps: seq<Step>, i: nat, h: Handle)
    requires Execution(disablePing, states, steps) && i < |states| && h in states[i].pool.txns
    ensures TellsFate(states[i].pool.txns[h], EventsOf(states[i].hist.log, h), h)
  {
    hide Execution, Inv, EventsOf, PhaseOf, Fits, TxnOk, TellsFate;
    InvAlways(disablePing, states, steps, i);
    TraceFacts(states[i], h);
    FitsTells(states[i].pool.txns[h], states[i].hist.log, h);
  }

  lemma TraceFacts(s: State, h: Handle)
    requires Inv(s) && h in s.pool.txns
    ensures Fits(s.pool.txns[h], PhaseOf(s.hist.log, h)) && PhaseOf(s.hist.log, h) != Bad && TxnOk(s.pool.txns[h])
    ensures s.pool.txns[h].fate == Unresolved ==> !PhaseOf(s.hist.log, h).Ended?
  {
    hide QueuesOk, Indexed, Accounted, DeferredOk, PrintsOk, InSendOrder, WireOk, PastOk, InputOk, BatchOk,
         RepliesOk, DeliveredOk, Alive, PhaseOf, BuildResponse;
    assert TxnOk(s.pool.txns[h]);
  }

  /** When the handler is at rest, every event ever queued has been delivered, in
      order; so the events the user saw about a transaction tell its fate. */
  lemma AllDeliveredAtRest(disablePing: bool, states: seq<State>, steps: seq<Step>, i: nat, h: Handle)
    requires Execution(disablePing, states, steps) && i < |states| && states[i].ctl.pc == Quiet
    ensures states[i].hist.delivered == Emitted(states[i].hist.log)
    ensures h in states[i].pool.txns ==> TellsFate(states[i].pool.txns[h], Of(states[i].hist.delivered, h), h)
  {
    hide Execution, CoreOk, Coupled, PingOk, FirstOk, LogMatches, Emitted, TellsFate, EventsOf, Of;
    InvAlways(disablePing, states, steps, i);
    var s := states[i];
    assert s.hist.delivered + [] == s.hist.delivered;
    EventsOfEmitted(s.hist.log, h);
    if h in s.pool.txns {
      FinalEventTellsFate(disablePing, states, steps, i, h);
    }
  }

  lemma DeliveredPrefix(s: State)
    requires DeliveredOk(s.ctl, s.hist.delivered, s.hist.log)
    ensures s.hist.delivered <= Emitted(s.hist.log)
  {
    hide Emitted;
    assert s.hist.delivered <= s.hist.delivered + s.ctl.batch;
  }

  /** The connection events queued and the status always agree. */
  lemma StatusFollowsLog(disablePing: bool, states: seq<State>, steps: seq<Step>, i: nat)
    requires Execution(disablePing, states, steps) && i < |states| && states[i].ctl.pc != Gone
    ensures LinkPhaseOf(states[i].hist.log) == StatusPhase(states[i].link.status)
  {
    InvAlways(disablePing, states, steps, i);
    hide CoreOk, DeliveredOk, Coupled, PingOk, FirstOk, CtlOk, Execution, LinkPhaseOf;
  }

  /** Connection events follow the protocol of attempts: a terminal event is the last
      one queued before the next attempt, and nothing else comes right before one. */
  lemma ConnectionLogAccepted(disablePing: bool, states: seq<State>, steps: seq<Step>, i: nat, k: nat)
    requires Execution(disablePing, states, steps) && i < |states|
    requires states[i].ctl.pc != Gone && k + 1 < |states[i].hist.log|
    ensures Terminal(states[i].hist.log[k]) <==> states[i].hist.log[k + 1] == Attempt
  {
    StatusFollowsLog(disablePing, states, steps, i);
    hide Execution, LinkPhaseOf;
    AcceptedMeaning(states[i].hist.log, k);
  }

  /** A transaction handed to a callback is never a freed one. */
  lemma CallbackPointerValid(disablePing: bool, states: seq<State>, steps: seq<Step>, i: nat)
    requires Execution(disablePing, states, steps) && i < |steps| && steps[i] == TakeEvent
    ensures states[i].ctl.batch != []
    ensures var h := About(Queues(states[i].ctl.batch[0]));
            h.Some? ==> h.value in states[i + 1].pool.txns && h.value !in states[i + 1].pool.freed
  {
    InvAlways(disablePing, states, steps, i);
    assert Enabled(states[i], TakeEvent) && states[i + 1] == Do(states[i], TakeEvent);
    hide Inv, Execution;
    BatchIsLive(states[i], 0);
  }

  lemma BatchIsLive(s: State, k: nat)
    requires Inv(s) && k < |s.ctl.batch|
    ensures var h := About(Queues(s.ctl.batch[k])); h.Some? ==> h.value in s.pool.txns && h.value !in s.pool.freed
  {
    BatchPart(s);
    hide Inv;
    var h := About(Queues(s.ctl.batch[k]));
    if h.Some? { LiveNotFreed(s, h.value); }
  }

  lemma BatchPart(s: State)
    requires Inv(s)
    ensures BatchOk(s.pool.txns, s.ctl.batch)
  {
    hide PoolOk, PrintsOk, InSendOrder, WireOk, PastOk, InputOk, TraceOk, BatchOk, RepliesOk, DeliveredOk, Alive;
  }

  // ----- destroy and callbacks -----

  /** A requested destroy has been noticed, or will be before the next event. */
  predicate Muted(s: State) {
    || s.ctl.pc == Gone
    || (s.ctl.destroy && s.ctl.pc == Callback)
    || (s.ctl.destroy && s.ctl.batch == [] && (s.ctl.pc == Deliver || s.ctl.pc.Leave? || s.ctl.pc == Last))
  }

  lemma MutedStays(s: State, a: Step)
    requires Inv(s) && Enabled(s, a) && Muted(s)
    ensures a != TakeEvent && Muted(Do(s, a))
  {
    hide Inv, SendMessages, DrainAll, Move, FreeId, FreeAll, Erase, Defer, DoOnConnected, DoOnRead, DoOnConnTimer, ConnFail,
         DoResume, DoDeletePing;
    match a
    case Send(h) =>
      if Sendable(s.pool.txns[h]) { InvCore(s); ReadySends(s, h); }
    case DrainDeferred => DrainKeepsCtl(s);
    case _ =>
  }

  lemma {:induction false} DrainKeepsCtl(s: State)
    ensures DrainAll(s).ctl == s.ctl
    decreases |s.pool.delayRm|
  {
    hide DrainHead;
    if s.pool.delayRm != [] && s.pool.delayRm[0] in s.pool.txns {
      DrainHeadShorter(s.pool);
      DrainKeepsCtl(DeleteNow(s, DrainHead(s.pool)));
    }
  }

  lemma {:induction false} MutedForever(disablePing: bool, states: seq<State>, steps: seq<Step>, i: nat, j: nat)
    requires Execution(disablePing, states, steps) && i <= j < |states| && Muted(states[i])
    ensures Muted(states[j])
    decreases j
  {
    hide Inv, Do, Enabled, Muted;
    if i < j {
      MutedForever(disablePing, states, steps, i, j - 1);
      InvAlways(disablePing, states, steps, j - 1);
      assert Enabled(states[j - 1], steps[j - 1]);
      MutedStays(states[j - 1], steps[j - 1]);
    }
  }

  /** After a destroy was requested from inside a callback, no callback follows. */
  lemma NoCallbackAfterDestroy(disablePing: bool, states: seq<State>, steps: seq<Step>, i: nat, j: nat)
    requires Execution(disablePing, states, steps) && i < j < |steps|
    requires steps[i] == Destroy && states[i].ctl.pc == Callback
    ensures steps[j] != TakeEvent
  {
    InvAlways(disablePing, states, steps, i);
    DestroyMutes(states[i]);
    MutedForever(disablePing, states, steps, i + 1, j);
    InvAlways(disablePing, states, steps, j);
    assert Enabled(states[j], steps[j]);
    hide Inv, Do, Enabled;
    MutedStays(states[j], steps[j]);
  }

  lemma DestroyMutes(s: State)
    requires Inv(s) && Enabled(s, Destroy) && s.ctl.pc == Callback
    ensures Muted(Do(s, Destroy))
  {
    hide CoreOk, Alive, DeliveredOk;
  }

  /** Requested from another thread while no callback runs, a destroy may be
      followed by one more callback, and never by two. */
  lemma AtMostOneCallbackAfterDestroy(disablePing: bool, states: seq<State>, steps: seq<Step>, i: nat, j: nat, k: nat)
    requires Execution(disablePing, states, steps) && i <= j < k < |steps|
    requires states[i].ctl.destroy && steps[j] == TakeEvent
    ensures steps[k] != TakeEvent
  {
    DestroySticks(disablePing, states, steps, i, j);
    assert Enabled(states[j], steps[j]) && states[j + 1] == Do(states[j], steps[j]);
    TakenMutes(states[j]);
    MutedForever(disablePing, states, steps, j + 1, k);
    InvAlways(disablePing, states, steps, k);
    assert Enabled(states[k], steps[k]);
    hide Inv, Do, Enabled;
    MutedStays(states[k], steps[k]);
  }

  lemma TakenMutes(s: State)
    requires Enabled(s, TakeEvent) && s.ctl.destroy
    ensures Muted(Do(s, TakeEvent))
  {
  }

  lemma {:induction false} DestroySticks(disablePing: bool, states: seq<State>, steps: seq<Step>, i: nat, j: nat)
    requires Execution(disablePing, states, steps) && i <= j < |states| && states[i].ctl.destroy
    ensures states[j].ctl.destroy
    decreases j
  {
    hide Inv, Do, Enabled;
    if i < j {
      DestroySticks(disablePing, states, steps, i, j - 1);
      InvAlways(disablePing, states, steps, j - 1);
      assert Enabled(states[j - 1], steps[j - 1]);
      DestroyKept(states[j - 1], steps[j - 1]);
    }
  }

  /** The steps that start a run of the event handler. */
  predicate EntersHandler(a: Step) {
    a.OnConnected? || a.OnLinkLost? || a.OnRead? || a.OnWrite? || a.OnTransTimer? || a.OnConnTimer?
  }

  lemma EntersFromQuiet(s: State, a: Step)
    requires Enabled(s, a) && EntersHandler(a)
    ensures s.ctl.pc == Quiet
  {
    hide PingPrinted, FreeId;
  }

  lemma DestroyKept(s: State, a: Step)
    requires Inv(s) && Enabled(s, a) && s.ctl.destroy
    ensures Do(s, a).ctl.destroy
  {
    hide Inv, SendMessages, DrainAll, Move, Erase, Defer, FreeId, DoResume, DoOnConnected, DoOnRead, ConnFail,
         DoOnTransTimer, DoOnConnTimer, FreeAll;
    NotQuiet(s);
    if EntersHandler(a) {
      EntersFromQuiet(s, a);
    } else {
      match a
      case Send(h) =>
        if Sendable(s.pool.txns[h]) { InvCore(s); ReadySends(s, h); }
      case DrainDeferred => DrainKeepsCtl(s);
      case ResumeHandler => ResumeKeepsDestroy(s);
      case _ =>
    }
  }

  lemma NotQuiet(s: State)
    requires Inv(s) && s.ctl.destroy
    ensures s.ctl.pc != Quiet
  {
    hide CoreOk, Coupled, PingOk, FirstOk, LogMatches, DeliveredOk;
  }

  lemma ResumeKeepsDestroy(s: State)
    requires Inv(s) && s.ctl.pc.Cleaned? && s.ctl.destroy
    ensures DoResume(s).ctl.destroy
  {
    match s.ctl.pc.k
    case FromTimeout =>
      hide CoreOk, ConnFail, LossReport, Marks, Forsaken;
      var t := s.(link := s.link.(pingTxn := None));
      CoreTimer(s, t, Away(s));
      ConnFailIs(t, true, Away(s));
    case _ =>
      hide Inv, CoreOk, OpenUp, ReadOn;
      InvCore(s);
      OpenUpInv(s);
      OpenUpCtl(s);
      if s.ctl.pc.k == FromRead {
        var t := Goto(OpenUp(s), Deliver);
        InvCore(t);
        CoreTimer(t, OpenUp(s), Away(t));
        ReadOnCtl(OpenUp(s), Away(t));
      }
  }

  lemma OpenUpCtl(s: State)
    requires Inv(s)
    ensures OpenUp(s).ctl.destroy == s.ctl.destroy
  {
    hide Inv, CoreOk, SendMessages;
    InvCore(s);
    var c := s.(link := s.link.(pingTxn := None, status := Connected));
    CoreTimer(s, c, Away(s));
    CoreMoves.CoreEmit(c, ConnConnected, Away(s));
    SendKeeps(Emit(c, ConnConnected), Away(s));
  }

  lemma ReadOnCtl(s: State, away: set<Handle>)
    requires CoreOk(s, away)
    requires s.link.pingTxn.Some? && s.link.pingTxn.value in s.pool.txns ==> s.pool.txns[s.link.pingTxn.value].ping
    ensures ReadOn(s).ctl.destroy == s.ctl.destroy
  {
    hide CoreOk, ReadLoop, ConnFail, LossReport, Marks, Forsaken;
    ReadLoopCtl(s);
    CoreReadLoop(s, away);
    var (r, end) := ReadLoop(s);
    if end == Failed {
      var u := if r.pool.pending == [] then ResetTimer(r) else r;
      CoreTimer(r, u, away);
      ConnFailIs(u, true, away);
    }
  }

  lemma {:induction false} ReadLoopCtl(s: State)
    ensures ReadLoop(s).0.ctl.destroy == s.ctl.destroy
    decreases |s.link.inbuf|
  {
    hide Framing.NextFrame, BuildResponse, Report, Answer, ReadLoop;
    ReadLoopFlat(s);
    var n := Framing.NextFrame(s.link.inbuf);
    if n.Got? {
      var s1 := Consume(s, n.msg, n.rest);
      var holder := PendingHolder(s.pool, n.msg.id);
      if holder == None {
        ReadLoopCtl(s1);
      } else {
        AnswerKeepsLink(s1, holder.value, n.msg);
        AnswerReportFrame(s1, holder.value, n.msg);
        ReportCtl(s1, holder.value, n.msg);
        if s.link.pingTxn != holder {
          ReadLoopCtl(Report(Answer(s1, holder.value, n.msg), holder.value));
        }
      }
    }
  }

  lemma ReportCtl(s: State, h: Handle, m: Framing.Message)
    requires h in s.pool.txns
    ensures Report(Answer(s, h, m), h).ctl.destroy == s.ctl.destroy
  {
    hide BuildResponse, Move;
  }
}
