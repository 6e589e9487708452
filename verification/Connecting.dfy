/** Connecting in two sections. `LM_conn_connect` drops the connection lock for the
    user's I/O callback after it has made the I/O object and before it registers it.
    Whatever happens in between is a run of the engine, where connecting is one step. */
module Connecting {
  import opened Bytes
  import opened Pool
  import opened Engine
  import opened Core
  import opened Invariant
  import opened Steps
  import opened Progress
  import opened Runs
  import opened Shutdown
  import opened Timers
  import KeyValue

  /** The engine, and whether some thread has made an I/O object that is not yet
      registered. That object counts as present for whoever looks. */
  datatype Split = Split(s: State, opening: bool)

  datatype SplitStep =
    | Begin               // the I/O object is made, the lock dropped
    | End(ok: bool)       // with the lock again: registered, or destroyed
    | Other(a: Step)

  predicate IsConnect(a: Step) {
    a.Connect? || a.Reconnect?
  }

  /** Anything can happen in between, but destroying the connection. */
  predicate SplitEnabled(x: Split, b: SplitStep) {
    match b
    case Begin => x.s.ctl.pc != Gone && x.s.link.io == NoIo && !x.opening
    case End(_) => x.opening
    case Other(a) => Enabled(x.s, a) && (x.opening ==> !TearsDown(x.s, a))
  }

  function Registered(s: State): State {
    s.(link := s.link.(io := Opening, status := Connecting), hist := s.hist.(log := s.hist.log + [Attempt]))
  }

  /** While an I/O object is being wrapped, another connect finds it and fails. */
  function SplitDo(x: Split, b: SplitStep): Split
    requires SplitEnabled(x, b)
  {
    match b
    case Begin => x.(opening := true)
    case End(ok) => Split(if ok then Registered(x.s) else x.s, false)
    case Other(a) =>
      if x.opening && a.Connect? then x
      else if x.opening && a.Reconnect? then x.(s := Goto(x.s, Last))
      else x.(s := Do(x.s, a))
  }

  predicate SplitExecution(disablePing: bool, xs: seq<Split>, bs: seq<SplitStep>) {
    && |xs| == |bs| + 1
    && xs[0] == Split(Init(disablePing), false)
    && (forall i :: 0 <= i < |bs| ==> SplitEnabled(xs[i], bs[i]) && xs[i + 1] == SplitDo(xs[i], bs[i]))
  }

  lemma DownIsDisconnected(s: State)
    requires Inv(s) && s.ctl.pc != Gone && s.link.io == NoIo
    ensures s.link.status == Disconnected && !Cleaning(s.ctl.pc)
  {
    hide CoreOk, DeliveredOk, PingOk, FirstOk, LogMatches, CtlOk;
  }

  /** Only connecting brings an I/O object into being. */
  lemma NoIoStays(s: State, a: Step)
    requires Inv(s) && Enabled(s, a) && s.link.io == NoIo && !IsConnect(a)
    ensures Do(s, a).link.io == NoIo
  {
    hide Inv, DrainAll, Move, Erase, Defer, FreeAll, FreeId, PromoteAll, DoResume, DoOnConnected, KeyValue.SetPair, Without;
    NotGone(s, a);
    DownIsDisconnected(s);
    if a == DrainDeferred { DrainKeepsLink(s); }
  }

  /** What a run of the two sections keeps: while one is between them, there is no
      registered I/O object and the connection is not freed. */
  predicate Between(x: Split) {
    x.opening ==> x.s.link.io == NoIo && x.s.ctl.pc != Gone
  }

  lemma BetweenStays(x: Split, a: Step)
    requires Inv(x.s) && Between(x) && SplitEnabled(x, Other(a))
    ensures Between(SplitDo(x, Other(a)))
  {
    hide Inv, Do, Enabled, TearsDown;
    if x.opening && !IsConnect(a) {
      NoIoStays(x.s, a);
      StillThere(x.s, a);
    }
  }

  lemma StillThere(s: State, a: Step)
    requires Inv(s) && Enabled(s, a) && !TearsDown(s, a)
    ensures Do(s, a).ctl.pc != Gone
  {
    hide Inv, Do, Enabled;
    PcAfter(s, a);
    if a == Finish { FinishQuiets(s); }
  }

  lemma FinishQuiets(s: State)
    requires Enabled(s, Finish) && !s.ctl.destroy
    ensures Do(s, Finish).ctl.pc == Quiet
  {
  }

  /** The step of the engine that a step of the two sections is, but for `Begin`. */
  function Whole(x: Split, b: SplitStep): Step
    requires b != Begin
  {
    match b
    case End(ok) => Connect(ok)
    case Other(a) =>
      if x.opening && a.Connect? then Connect(false)
      else if x.opening && a.Reconnect? then Reconnect(false)
      else a
  }

  lemma WholeDoes(x: Split, b: SplitStep)
    requires Between(x) && SplitEnabled(x, b) && b != Begin
    ensures Enabled(x.s, Whole(x, b)) && Do(x.s, Whole(x, b)) == SplitDo(x, b).s
  {
    hide DoOnRead, DoOnConnected, DoSend, DoDelete, DoResume, DoDrain, ConnFail;
  }

  /** Connecting in two sections, with anything in between but destroying the
      connection, shows only states that runs with connecting in one section show. */
  lemma {:induction false} SplitRunsAreRuns(disablePing: bool, xs: seq<Split>, bs: seq<SplitStep>) returns (states: seq<State>, steps: seq<Step>)
    requires SplitExecution(disablePing, xs, bs)
    ensures Execution(disablePing, states, steps) && states[|steps|] == xs[|bs|].s && Between(xs[|bs|])
    ensures forall i :: 0 <= i < |xs| ==> xs[i].s in states
    decreases |bs|
  {
    hide Inv, Do, Enabled, SplitDo, SplitEnabled, Between, TearsDown;
    if bs == [] {
      states, steps := [Init(disablePing)], [];
      NotBetween(Init(disablePing));
    } else {
      var n := |bs| - 1;
      assert SplitExecution(disablePing, xs[..n + 1], bs[..n]);
      states, steps := SplitRunsAreRuns(disablePing, xs[..n + 1], bs[..n]);
      assert forall i :: 0 <= i <= n ==> xs[i] == xs[..n + 1][i];
      var x, b := xs[n], bs[n];
      InvAlways(disablePing, states, steps, |steps|);
      AfterSplit(x, b);
      if b != Begin {
        WholeDoes(x, b);
        states, steps := Extend(disablePing, states, steps, Whole(x, b));
      }
    }
  }

  lemma NotBetween(s: State)
    ensures Between(Split(s, false))
  {
  }

  lemma AfterSplit(x: Split, b: SplitStep)
    requires Inv(x.s) && Between(x) && SplitEnabled(x, b)
    ensures Between(SplitDo(x, b)) && (b == Begin ==> SplitDo(x, b).s == x.s)
  {
    hide Inv, Do, Enabled;
    if b.Other? { BetweenStays(x, b.a); }
  }
}
